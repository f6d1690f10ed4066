/** The functions of the Go packages `strings` and `strconv` that the modelled code reads texts with. */
module Strings {
  import opened Wrappers

  predicate IsSpace(c: char) {
    c in {' ', '\t', '\n', '\r', '\U{000B}', '\U{000C}', '\U{0085}', '\U{00A0}', '\U{1680}', '\U{2028}', '\U{2029}', '\U{202F}',
          '\U{205F}', '\U{3000}'} || '\U{2000}' <= c <= '\U{200A}'
  }

  /** `strings.Fields`: the maximal runs of characters that are not space. */
  function Fields(text: string): (fields: seq<string>)
    ensures forall i :: 0 <= i < |fields| ==> fields[i] != ""
  {
    if text == "" then []
    else if IsSpace(text[0]) then Fields(text[1..])
    else
      var rest := Fields(text[1..]);
      if |text| > 1 && !IsSpace(text[1]) && |rest| > 0 then [[text[0]] + rest[0]] + rest[1..]
      else [[text[0]]] + rest
  }

  /** Texts one after another, each with the one of the other list that follows it. */
  function Alternated(gaps: seq<string>, fields: seq<string>): string
    requires |gaps| == |fields| + 1
  {
    if fields == [] then gaps[0] else gaps[0] + fields[0] + Alternated(gaps[1..], fields[1..])
  }

  predicate IsAllSpace(text: string) { forall i :: 0 <= i < |text| ==> IsSpace(text[i]) }

  predicate HasNoSpace(text: string) { forall i :: 0 <= i < |text| ==> !IsSpace(text[i]) }

  /** Whatever text has these runs, with space around and between them, has these fields. */
  lemma {:induction false} FieldsAreTheRuns(gaps: seq<string>, fields: seq<string>)
    requires |gaps| == |fields| + 1 && (forall i :: 0 <= i < |gaps| ==> IsAllSpace(gaps[i]))
    requires forall i :: 0 <= i < |fields| ==> fields[i] != "" && HasNoSpace(fields[i])
    requires forall i :: 0 < i < |fields| ==> gaps[i] != ""
    ensures Fields(Alternated(gaps, fields)) == fields
    decreases |fields|
  {
    if fields == [] {
      NoFields(gaps[0], "");
      assert gaps[0] + "" == gaps[0];
    } else {
      var rest := Alternated(gaps[1..], fields[1..]);
      FieldsAreTheRuns(gaps[1..], fields[1..]);
      assert Alternated(gaps, fields) == gaps[0] + (fields[0] + rest);
      NoFields(gaps[0], fields[0] + rest);
      if |fields| > 1 {
        assert rest[0] == gaps[1][0];
      } else {
        assert rest == gaps[1];
      }
      OneField(fields[0], rest);
    }
  }

  lemma {:induction false} NoFields(space: string, rest: string)
    requires IsAllSpace(space)
    ensures Fields(space + rest) == Fields(rest)
  {
    if space == "" {
      assert space + rest == rest;
    } else {
      NoFields(space[1..], rest);
      assert (space + rest)[1..] == space[1..] + rest;
    }
  }

  lemma {:induction false} OneField(field: string, rest: string)
    requires field != "" && HasNoSpace(field) && (rest != "" ==> IsSpace(rest[0]))
    ensures Fields(field + rest) == [field] + Fields(rest)
  {
    var text := field + rest;
    if |field| == 1 {
      assert text[1..] == rest && field == [text[0]];
    } else {
      OneField(field[1..], rest);
      assert text[1..] == field[1..] + rest && field == [text[0]] + field[1..] && text[1] == field[1];
      assert Fields(text[1..])[0] == field[1..] && Fields(text[1..])[1..] == Fields(rest);
    }
  }

  datatype Halves = Halves(before: string, after: string, found: bool)

  /** `strings.Cut` at a one-character separator. */
  function Cut(text: string, separator: char): (halves: Halves)
    ensures separator !in halves.before
    ensures if halves.found then text == halves.before + [separator] + halves.after else text == halves.before
  {
    if text == "" then Halves("", "", false)
    else if text[0] == separator then Halves("", text[1..], true)
    else
      var rest := Cut(text[1..], separator);
      Halves([text[0]] + rest.before, rest.after, rest.found)
  }

  lemma {:induction false} CutWhole(text: string, separator: char)
    requires separator !in text
    ensures Cut(text, separator) == Halves(text, "", false)
  {
    if text != "" {
      CutWhole(text[1..], separator);
    }
  }

  lemma {:induction false} CutAt(before: string, separator: char, after: string)
    requires separator !in before
    ensures Cut(before + [separator] + after, separator) == Halves(before, after, true)
  {
    var text := before + [separator] + after;
    if before == "" {
      assert text[1..] == after;
    } else {
      CutAt(before[1..], separator, after);
      assert text[1..] == before[1..] + [separator] + after;
    }
  }

  /** `strings.Split` at a one-character separator: never empty. */
  function Split(text: string, separator: char): (items: seq<string>)
    ensures |items| > 0
    ensures text != "" && text[0] != separator ==> items[0] != "" && items[0][0] == text[0]
  {
    if text == "" then [""]
    else if text[0] == separator then [""] + Split(text[1..], separator)
    else
      var rest := Split(text[1..], separator);
      [[text[0]] + rest[0]] + rest[1..]
  }

  function Joined(items: seq<string>, separator: char): string
    requires items != []
  {
    if |items| == 1 then items[0] else items[0] + [separator] + Joined(items[1..], separator)
  }

  /** Items without the separator are what their joined text splits into. */
  lemma {:induction false} SplitUndoesJoining(items: seq<string>, separator: char)
    requires items != [] && forall i :: 0 <= i < |items| ==> separator !in items[i]
    ensures Split(Joined(items, separator), separator) == items
    decreases |items|
  {
    if |items| == 1 {
      SplitsOff(items[0], separator, "");
      assert items[0] + "" == items[0];
    } else {
      SplitUndoesJoining(items[1..], separator);
      var rest := Joined(items[1..], separator);
      var tail := [separator] + rest;
      assert Joined(items, separator) == items[0] + tail && tail[1..] == rest;
      assert Split(tail, separator) == [""] + items[1..];
      SplitsOff(items[0], separator, tail);
      assert items[0] + "" == items[0] && items == [items[0]] + items[1..];
    }
  }

  lemma {:induction false} SplitsOff(item: string, separator: char, rest: string)
    requires separator !in item
    ensures var items := Split(rest, separator); Split(item + rest, separator) == [item + items[0]] + items[1..]
  {
    var items := Split(rest, separator);
    if item == "" {
      assert item + rest == rest && item + items[0] == items[0] && items == [items[0]] + items[1..];
    } else {
      SplitsOff(item[1..], separator, rest);
      assert (item + rest)[1..] == item[1..] + rest && [item[0]] + (item[1..] + items[0]) == item + items[0];
    }
  }

  predicate IsDigit(c: char) { '0' <= c <= '9' }

  function Digits(text: string): (value: Option<nat>) {
    if text == "" then None
    else if !IsDigit(text[|text| - 1]) then None
    else if |text| == 1 then Some((text[0] - '0') as nat)
    else
      match Digits(text[..|text| - 1])
      case None => None
      case Some(n) => Some(n * 10 + (text[|text| - 1] - '0') as nat)
  }

  /** A number as it is written, without a sign and with no zero too many. */
  function Numeral(n: nat): string {
    if n < 10 then ['0' + n as char] else Numeral(n / 10) + ['0' + (n % 10) as char]
  }

  /** Digits stand for the number they are the numeral of, whatever zeros go before. */
  lemma {:induction false} NumeralsReadBack(n: nat, zeros: nat)
    ensures Digits(seq(zeros, _ => '0') + Numeral(n)) == Some(n)
  {
    var text := seq(zeros, _ => '0') + Numeral(n);
    if n >= 10 {
      NumeralsReadBack(n / 10, zeros);
      assert text[..|text| - 1] == seq(zeros, _ => '0') + Numeral(n / 10);
    } else if zeros > 0 {
      ZerosReadBack(zeros);
      assert text[..|text| - 1] == seq(zeros, _ => '0');
    }
  }

  lemma {:induction false} ZerosReadBack(zeros: nat)
    requires zeros > 0
    ensures Digits(seq(zeros, _ => '0')) == Some(0)
  {
    if zeros > 1 {
      ZerosReadBack(zeros - 1);
      assert seq(zeros, _ => '0')[..zeros - 1] == seq(zeros - 1, _ => '0');
    }
  }

  lemma {:induction false} OnlyDigitsAreRead(text: string)
    ensures Digits(text).Some? <==> text != "" && forall i :: 0 <= i < |text| ==> IsDigit(text[i])
  {
    if |text| > 1 {
      OnlyDigitsAreRead(text[..|text| - 1]);
    }
  }

  const MIN_INT := -0x8000_0000_0000_0000
  const MAX_INT := 0x7FFF_FFFF_FFFF_FFFF

  /** `strconv.Atoi` on a 64-bit machine. */
  function Atoi(text: string): (value: Option<int>)
    ensures value.Some? ==> text != "" && (IsDigit(text[0]) || text[0] == '+' || text[0] == '-')
  {
    if text == "" then None
    else
      var signed := text[0] == '+' || text[0] == '-';
      match Digits(if signed then text[1..] else text)
      case None => None
      case Some(n) =>
        var value := if text[0] == '-' then 0 - n as int else n as int;
        DigitsStartWithADigit(if signed then text[1..] else text);
        if MIN_INT <= value <= MAX_INT then Some(value) else None
  }

  lemma {:induction false} DigitsStartWithADigit(text: string)
    ensures Digits(text).Some? ==> text != "" && IsDigit(text[0])
  {
    if |text| > 1 {
      DigitsStartWithADigit(text[..|text| - 1]);
    }
  }

  /** A number reads back with and without a sign, if it has room in 64 bits. */
  lemma AtoiReadsBack(n: nat)
    ensures Atoi(Numeral(n)) == Atoi(['+'] + Numeral(n)) == if n < 9_223_372_036_854_775_808 then Some(n) else None
    ensures Atoi(['-'] + Numeral(n)) == if n <= 9_223_372_036_854_775_808 then Some(0 - n) else None
  {
    var text := Numeral(n);
    assert Digits(text) == Some(n) by {
      NumeralsReadBack(n, 0);
      assert seq(0, _ => '0') + text == text;
    }
    DigitsStartWithADigit(text);
    UnsignedReadsBack(text, n);
    SignedReadsBack('+', text, n);
    SignedReadsBack('-', text, n);
  }

  lemma UnsignedReadsBack(text: string, n: nat)
    requires text != "" && IsDigit(text[0]) && Digits(text) == Some(n)
    ensures Atoi(text) == if n < 9_223_372_036_854_775_808 then Some(n) else None
  {
  }

  lemma SignedReadsBack(sign: char, text: string, n: nat)
    requires sign in {'+', '-'} && Digits(text) == Some(n)
    ensures var value := if sign == '-' then 0 - n else n;
            Atoi([sign] + text) ==
            if -9_223_372_036_854_775_808 <= value < 9_223_372_036_854_775_808 then Some(value) else None
  {
    assert ([sign] + text)[1..] == text;
  }

  /** Simple case folding of the letters the schedule names are written with. */
  function Fold(c: char): char {
    if 'a' <= c <= 'z' then c - 'a' + 'A'
    else if c == '\U{017F}' then 'S'
    else if c == '\U{212A}' then 'K'
    else c
  }

  /** A letter folds with itself in either case, and with the long s or the kelvin sign. */
  lemma FoldsWith(c: char, upper: char)
    requires 'A' <= upper <= 'Z'
    ensures Fold(c) == Fold(upper) <==>
              || c == upper || c == upper + ('a' - 'A') || (upper == 'S' && c == '\U{017F}') || (upper == 'K' && c == '\U{212A}')
  {
  }

  predicate EqualFold(a: string, b: string) {
    |a| == |b| && forall i :: 0 <= i < |a| ==> Fold(a[i]) == Fold(b[i])
  }
}
