/** `parseSellEarning`: the payout of a sale, in exact cents, from either way of writing it.

    Which messages speak of a sale is a matter of wording and left open; how an amount is
    found and read in one is not. */
module Money {
  import opened Wrappers

  /** What the patterns for whole messages say of a text. */
  datatype Wording = Wording(breakdown: string -> bool, sale: string -> bool, payment: string -> bool)

  const MAX_SAFE := 9007199254740991

  predicate IsDigit(c: char) {
    '0' <= c <= '9'
  }

  /** The white space of a regular expression. */
  predicate IsSpace(c: char) {
    || '\t' <= c <= '\r' || c == ' ' || c == '\U{00A0}' || c == '\U{1680}' || '\U{2000}' <= c <= '\U{200A}'
    || c == '\U{2028}' || c == '\U{2029}' || c == '\U{202F}' || c == '\U{205F}' || c == '\U{3000}' || c == '\U{FEFF}'
  }

  predicate IsSeparator(c: char) {
    c == '.' || c == ','
  }

  // ----- formatting codes -----

  const SECTION := '\U{00A7}'

  predicate IsCode(c: char) {
    IsDigit(c) || 'a' <= c <= 'u' || 'A' <= c <= 'U'
  }

  function Strip(s: string): string {
    if s == "" then ""
    else if s[0] != SECTION then [s[0]] + Strip(s[1..])
    else if |s| > 1 && IsCode(s[1]) then Strip(s[2..])
    else Strip(s[1..])
  }

  /** Formatting does not matter: text passes, codes vanish. */
  lemma {:induction false} StripText(a: string, b: string)
    requires SECTION !in a
    ensures Strip(a + b) == a + Strip(b)
  {
    if a == "" {
      assert a + b == b;
    } else {
      assert (a + b)[1..] == a[1..] + b;
      StripText(a[1..], b);
    }
  }

  lemma StripCode(code: char, b: string)
    requires IsCode(code)
    ensures Strip([SECTION, code] + b) == Strip(b)
  {
    assert ([SECTION, code] + b)[2..] == b;
  }

  // ----- numerals -----

  /** A separator and the digits after it. */
  datatype Part = Part(sep: char, digits: string)

  /** Digits, and more digits after separators, as far as they go; `end` is where they end. */
  datatype Numeral = Numeral(head: string, parts: seq<Part>)

  function DigitsEnd(text: string, i: nat): (r: nat)
    requires i <= |text|
    ensures i <= r <= |text| && (forall k :: i <= k < r ==> IsDigit(text[k])) && (r < |text| ==> !IsDigit(text[r]))
    decreases |text| - i
  {
    if i < |text| && IsDigit(text[i]) then DigitsEnd(text, i + 1) else i
  }

  predicate PartAt(text: string, i: nat) {
    i + 1 < |text| && IsSeparator(text[i]) && IsDigit(text[i + 1])
  }

  function Parts(text: string, i: nat): seq<Part>
    requires i <= |text|
    decreases |text| - i
  {
    if PartAt(text, i) then
      [Part(text[i], text[i + 1..DigitsEnd(text, i + 1)])] + Parts(text, DigitsEnd(text, i + 1))
    else []
  }

  function PartsEnd(text: string, i: nat): (r: nat)
    requires i <= |text|
    ensures i <= r <= |text|
    decreases |text| - i
  {
    if PartAt(text, i) then PartsEnd(text, DigitsEnd(text, i + 1)) else i
  }

  predicate NumeralAt(text: string, i: nat) {
    i < |text| && IsDigit(text[i])
  }

  function ReadNumeral(text: string, i: nat): Numeral
    requires NumeralAt(text, i)
  {
    Numeral(text[i..DigitsEnd(text, i)], Parts(text, DigitsEnd(text, i)))
  }

  function NumeralEnd(text: string, i: nat): (r: nat)
    requires NumeralAt(text, i)
    ensures i <= r <= |text|
  {
    PartsEnd(text, DigitsEnd(text, i))
  }

  function SpacesEnd(text: string, i: nat): (r: nat)
    requires i <= |text|
    ensures i <= r <= |text| && (r < |text| ==> !IsSpace(text[r]))
    decreases |text| - i
  {
    if i < |text| && IsSpace(text[i]) then SpacesEnd(text, i + 1) else i
  }

  // ----- finding the amount -----

  /** A dollar sign, and its numeral. */
  function DollarAt(text: string, i: nat): Option<nat>
    requires i <= |text|
  {
    if i < |text| && text[i] == '$' && NumeralAt(text, SpacesEnd(text, i + 1)) then Some(SpacesEnd(text, i + 1))
    else None
  }

  /** The first numeral after a dollar sign. */
  function FindSale(text: string, i: nat): Option<Numeral>
    requires i <= |text|
    decreases |text| - i
  {
    if i == |text| then None
    else if DollarAt(text, i).Some? then Some(ReadNumeral(text, DollarAt(text, i).value))
    else FindSale(text, i + 1)
  }

  function Lower(c: char): char {
    if 'A' <= c <= 'Z' then c + ('a' - 'A') else c
  }

  predicate WordAt(text: string, i: nat, word: string) {
    i + |word| <= |text| && forall k :: 0 <= k < |word| ==> Lower(text[i + k]) == word[k]
  }

  /** `(Basis:`, with spaces anywhere between. */
  predicate BaseFollows(text: string, i: nat)
    requires i <= |text|
  {
    var open := SpacesEnd(text, i);
    && open < |text| && text[open] == '('
    && var word := SpacesEnd(text, open + 1);
       && WordAt(text, word, "basis")
       && var colon := SpacesEnd(text, word + 5); colon < |text| && text[colon] == ':'
  }

  /** A plus sign, a dollar sign and its numeral before the base. */
  function TotalAt(text: string, i: nat): Option<nat>
    requires i <= |text|
  {
    if i < |text| && text[i] == '+' then
      var start := DollarAt(text, SpacesEnd(text, i + 1));
      if start.Some? && BaseFollows(text, NumeralEnd(text, start.value)) then start else None
    else None
  }

  function FindTotal(text: string, i: nat): Option<Numeral>
    requires i <= |text|
    decreases |text| - i
  {
    if i == |text| then None
    else if TotalAt(text, i).Some? then Some(ReadNumeral(text, TotalAt(text, i).value))
    else FindTotal(text, i + 1)
  }

  // ----- reading it -----

  function DigitValue(c: char): (r: nat)
    requires IsDigit(c)
    ensures r < 10
  {
    (c as int) - ('0' as int)
  }

  predicate AllDigits(s: string) {
    forall i :: 0 <= i < |s| ==> IsDigit(s[i])
  }

  function Value(digits: string): nat
    requires AllDigits(digits)
  {
    if digits == "" then 0 else 10 * Value(digits[..|digits| - 1]) + DigitValue(digits[|digits| - 1])
  }

  predicate WellFormed(n: Numeral) {
    AllDigits(n.head) && PartsWellFormed(n.parts)
  }

  predicate PartsWellFormed(parts: seq<Part>) {
    forall i :: 0 <= i < |parts| ==> AllDigits(parts[i].digits)
  }

  /** Groups of three after `sep`. */
  predicate Groups(parts: seq<Part>, sep: char) {
    forall i :: 0 <= i < |parts| ==> parts[i].sep == sep && |parts[i].digits| == 3
  }

  function Joined(head: string, parts: seq<Part>): nat
    requires AllDigits(head) && PartsWellFormed(parts)
  {
    if parts == [] then Value(head)
    else 1000 * Joined(head, parts[..|parts| - 1]) + Value(parts[|parts| - 1].digits)
  }

  /** One or two decimals, as cents. */
  function Decimals(digits: string): nat
    requires AllDigits(digits)
  {
    if |digits| == 1 then 10 * Value(digits) else Value(digits)
  }

  predicate IsFraction(p: Part, dec: char) {
    p.sep == dec && 1 <= |p.digits| <= 2
  }

  /** Thousands after `sep`, decimals after `dec`. */
  function Grouped(n: Numeral, sep: char, dec: char): Option<nat>
    requires WellFormed(n)
  {
    var k := |n.parts|;
    if k == 0 || |n.head| > 3 then None
    else if Groups(n.parts, sep) then Some(100 * Joined(n.head, n.parts))
    else if k > 1 && Groups(n.parts[..k - 1], sep) && IsFraction(n.parts[k - 1], dec) then
      Some(100 * Joined(n.head, n.parts[..k - 1]) + Decimals(n.parts[k - 1].digits))
    else None
  }

  function Ungrouped(n: Numeral): Option<nat>
    requires WellFormed(n)
  {
    if n.parts == [] then Some(100 * Value(n.head))
    else if |n.parts| == 1 && 1 <= |n.parts[0].digits| <= 2 then Some(100 * Value(n.head) + Decimals(n.parts[0].digits))
    else None
  }

  /** The cents of a numeral; the German reading goes first. */
  function Cents(n: Numeral): Option<nat>
    requires WellFormed(n)
  {
    if Grouped(n, '.', ',').Some? then Grouped(n, '.', ',')
    else if Grouped(n, ',', '.').Some? then Grouped(n, ',', '.')
    else Ungrouped(n)
  }

  lemma {:induction false} PartsAreDigits(text: string, i: nat)
    requires i <= |text|
    ensures PartsWellFormed(Parts(text, i))
    decreases |text| - i
  {
    if PartAt(text, i) {
      PartsAreDigits(text, DigitsEnd(text, i + 1));
    }
  }

  lemma ReadIsWellFormed(text: string, i: nat)
    requires NumeralAt(text, i)
    ensures WellFormed(ReadNumeral(text, i))
  {
    PartsAreDigits(text, DigitsEnd(text, i));
  }

  lemma {:induction false} FoundIsWellFormed(text: string, i: nat)
    requires i <= |text|
    ensures FindSale(text, i).Some? ==> WellFormed(FindSale(text, i).value)
    ensures FindTotal(text, i).Some? ==> WellFormed(FindTotal(text, i).value)
    decreases |text| - i
  {
    hide WellFormed, ReadNumeral, SpacesEnd;
    if i < |text| {
      FoundIsWellFormed(text, i + 1);
      if DollarAt(text, i).Some? {
        ReadIsWellFormed(text, DollarAt(text, i).value);
      }
      if TotalAt(text, i).Some? {
        ReadIsWellFormed(text, TotalAt(text, i).value);
      }
    }
  }

  function ParseSellEarning(w: Wording, message: string): Option<nat> {
    var text := Strip(message);
    if (!w.breakdown(text) && !w.sale(text)) || w.payment(text) then None
    else
      var found := if w.breakdown(text) then FindTotal(text, 0) else FindSale(text, 0);
      if found.None? then None
      else
        FoundIsWellFormed(text, 0);
        var cents := Cents(found.value);
        if cents.Some? && 0 < cents.value <= MAX_SAFE then cents else None
  }

  // ----- printing an amount -----

  /** How thousands and decimals are set off. */
  datatype Style = German | English

  function Sep(style: Style): char {
    if style.German? then '.' else ','
  }

  function Dec(style: Style): char {
    if style.German? then ',' else '.'
  }

  function DigitChar(d: nat): (c: char)
    requires d < 10
    ensures IsDigit(c) && DigitValue(c) == d
  {
    (('0' as int) + d) as char
  }

  function Digits(n: nat): (s: string)
    ensures s != ""
  {
    if n < 10 then [DigitChar(n)] else Digits(n / 10) + [DigitChar(n % 10)]
  }

  function Padded(n: nat, k: nat): (s: string)
    ensures |s| == k
    decreases k
  {
    if k == 0 then "" else Padded(n / 10, k - 1) + [DigitChar(n % 10)]
  }

  function Head(n: nat): string {
    if n < 1000 then Digits(n) else Head(n / 1000)
  }

  function Thousands(sep: char, n: nat): seq<Part> {
    if n < 1000 then [] else Thousands(sep, n / 1000) + [Part(sep, Padded(n % 1000, 3))]
  }

  function Written(style: Style, cents: nat): Numeral {
    Numeral(Head(cents / 100), Thousands(Sep(style), cents / 100) + [Part(Dec(style), Padded(cents % 100, 2))])
  }

  function RenderParts(parts: seq<Part>): string {
    if parts == [] then "" else [parts[0].sep] + parts[0].digits + RenderParts(parts[1..])
  }

  function Render(n: Numeral): string {
    n.head + RenderParts(n.parts)
  }

  // ----- what is written has its value -----

  lemma ValueOneMore(s: string, c: char)
    requires AllDigits(s) && IsDigit(c)
    ensures AllDigits(s + [c]) && Value(s + [c]) == 10 * Value(s) + DigitValue(c)
  {
    assert (s + [c])[..|s|] == s;
  }

  lemma {:induction false} DigitsValue(n: nat)
    ensures AllDigits(Digits(n)) && Value(Digits(n)) == n
    ensures n < 1000 ==> |Digits(n)| <= 3
  {
    if n < 10 {
      assert [DigitChar(n)] == "" + [DigitChar(n)];
      ValueOneMore("", DigitChar(n));
    } else {
      DigitsValue(n / 10);
      ValueOneMore(Digits(n / 10), DigitChar(n % 10));
      DigitsShort(n);
    }
  }

  lemma DigitsShort(n: nat)
    ensures n < 1000 ==> |Digits(n)| <= 3
  {
    if n < 1000 {
      assert n / 10 / 10 < 10;
      assert n / 10 < 10 || |Digits(n / 10)| == |Digits(n / 10 / 10)| + 1;
    }
  }

  function Power10(k: nat): nat {
    if k == 0 then 1 else 10 * Power10(k - 1)
  }

  lemma {:induction false} PaddedValue(n: nat, k: nat)
    requires n < Power10(k)
    ensures AllDigits(Padded(n, k)) && Value(Padded(n, k)) == n
    decreases k
  {
    if k > 0 {
      PaddedValue(n / 10, k - 1);
      ValueOneMore(Padded(n / 10, k - 1), DigitChar(n % 10));
    }
  }

  lemma ThreeDigits(n: nat)
    requires n < 1000
    ensures AllDigits(Padded(n, 3)) && Value(Padded(n, 3)) == n
  {
    assert Power10(3) == 1000 by { assert Power10(1) == 10; assert Power10(2) == 100; }
    PaddedValue(n, 3);
  }

  lemma OneGroupMore(head: string, groups: seq<Part>, sep: char, digits: string)
    requires AllDigits(head) && PartsWellFormed(groups) && Groups(groups, sep) && AllDigits(digits) && |digits| == 3
    ensures var more := groups + [Part(sep, digits)];
            && PartsWellFormed(more) && Groups(more, sep)
            && Joined(head, more) == 1000 * Joined(head, groups) + Value(digits)
  {
    hide Value;
    var more := groups + [Part(sep, digits)];
    assert more[..|groups|] == groups;
  }

  lemma {:induction false} HeadAndThousands(sep: char, n: nat)
    ensures AllDigits(Head(n)) && 1 <= |Head(n)| <= 3
    ensures PartsWellFormed(Thousands(sep, n)) && Groups(Thousands(sep, n), sep)
    ensures Joined(Head(n), Thousands(sep, n)) == n
  {
    hide Digits, Padded, Value, AllDigits, PartsWellFormed, Groups;
    if n < 1000 {
      DigitsValue(n);
      NoGroups(sep);
    } else {
      HeadAndThousands(sep, n / 1000);
      ThreeDigits(n % 1000);
      OneGroupMore(Head(n / 1000), Thousands(sep, n / 1000), sep, Padded(n % 1000, 3));
    }
  }

  lemma NoGroups(sep: char)
    ensures PartsWellFormed([]) && Groups([], sep)
  {
  }

  lemma TwoDecimals(cents: nat)
    ensures var s := Padded(cents % 100, 2); AllDigits(s) && Decimals(s) == cents % 100
  {
    assert Power10(2) == 100 by { assert Power10(1) == 10; }
    PaddedValue(cents % 100, 2);
  }

  /** Reading what was written, in either style, gives the amount. */
  lemma WrittenCents(style: Style, cents: nat)
    ensures WellFormed(Written(style, cents)) && Cents(Written(style, cents)) == Some(cents)
  {
    hide Head, Thousands, Padded, Joined, Value, Decimals;
    var n := cents / 100;
    HeadAndThousands(Sep(style), n);
    TwoDecimals(cents);
    var groups, last := Thousands(Sep(style), n), Part(Dec(style), Padded(cents % 100, 2));
    SplitLast(style, Head(n), groups, last, n, cents % 100);
  }

  lemma SplitLast(style: Style, head: string, groups: seq<Part>, last: Part, n: nat, rest: nat)
    requires AllDigits(head) && 1 <= |head| <= 3 && PartsWellFormed(groups) && Groups(groups, Sep(style))
    requires Joined(head, groups) == n && AllDigits(last.digits) && |last.digits| == 2 && last.sep == Dec(style)
    requires Decimals(last.digits) == rest
    ensures var m := Numeral(head, groups + [last]); WellFormed(m) && Cents(m) == Some(100 * n + rest)
  {
    hide Value, Decimals, Joined, Groups, PartsWellFormed, AllDigits;
    var parts := groups + [last];
    assert parts[..|groups|] == groups && parts[|groups|] == last;
    LastIsNoGroup(groups, last, '.');
    LastIsNoGroup(groups, last, ',');
    MoreWellFormed(groups, last);
    if groups == [] {
      NoGroupsJoined(head);
    } else if style.English? {
      OtherSeparator(groups, ',', '.');
    }
  }

  lemma LastIsNoGroup(groups: seq<Part>, last: Part, sep: char)
    requires |last.digits| == 2
    ensures !Groups(groups + [last], sep)
  {
    assert (groups + [last])[|groups|] == last;
  }

  lemma MoreWellFormed(groups: seq<Part>, last: Part)
    requires PartsWellFormed(groups) && AllDigits(last.digits)
    ensures PartsWellFormed(groups + [last])
  {
    hide AllDigits;
  }

  lemma NoGroupsJoined(head: string)
    requires AllDigits(head)
    ensures PartsWellFormed([]) && Joined(head, []) == Value(head)
  {
  }

  lemma OtherSeparator(groups: seq<Part>, sep: char, other: char)
    requires groups != [] && Groups(groups, sep) && sep != other
    ensures !Groups(groups, other)
  {
    assert groups[0].sep == sep;
  }

  // ----- what is written is read -----

  predicate At(text: string, i: nat, s: string) {
    i + |s| <= |text| && text[i..i + |s|] == s
  }

  /** No numeral goes on here. */
  predicate Stops(text: string, i: nat) {
    i <= |text| && (i < |text| ==> !IsDigit(text[i])) && !PartAt(text, i)
  }

  lemma AtTwo(text: string, i: nat, a: string, b: string)
    requires At(text, i, a + b)
    ensures At(text, i, a) && At(text, i + |a|, b)
  {
    assert text[i..i + |a|] == text[i..i + |a + b|][..|a|];
    assert text[i + |a|..i + |a| + |b|] == text[i..i + |a + b|][|a|..];
  }

  lemma {:induction false} DigitsRun(text: string, i: nat, s: string)
    requires At(text, i, s) && AllDigits(s) && (i + |s| < |text| ==> !IsDigit(text[i + |s|]))
    ensures DigitsEnd(text, i) == i + |s|
    decreases |s|
  {
    if s != "" {
      assert text[i] == s[0];
      assert At(text, i + 1, s[1..]) by {
        assert s == [s[0]] + s[1..];
        AtTwo(text, i, [s[0]], s[1..]);
      }
      DigitsRun(text, i + 1, s[1..]);
    }
  }

  predicate Printable(parts: seq<Part>) {
    forall i :: 0 <= i < |parts| ==> IsSeparator(parts[i].sep) && parts[i].digits != "" && AllDigits(parts[i].digits)
  }

  lemma StartsWithSeparator(text: string, i: nat, parts: seq<Part>)
    requires Printable(parts) && At(text, i, RenderParts(parts)) && Stops(text, i + |RenderParts(parts)|)
    ensures i < |text| ==> !IsDigit(text[i])
  {
    if parts != [] {
      assert text[i] == RenderParts(parts)[0];
    }
  }

  lemma FirstPart(text: string, i: nat, parts: seq<Part>)
    requires Printable(parts) && At(text, i, RenderParts(parts)) && Stops(text, i + |RenderParts(parts)|) && parts != []
    ensures var j := i + 1 + |parts[0].digits|;
            && PartAt(text, i) && DigitsEnd(text, i + 1) == j && text[i + 1..j] == parts[0].digits
            && text[i] == parts[0].sep
            && Printable(parts[1..]) && At(text, j, RenderParts(parts[1..]))
            && j + |RenderParts(parts[1..])| == i + |RenderParts(parts)|
  {
    hide DigitsEnd, Stops, IsSeparator, IsDigit;
    var part, rest := parts[0], RenderParts(parts[1..]);
    AtTwo(text, i, [part.sep] + part.digits, rest);
    AtTwo(text, i, [part.sep], part.digits);
    assert text[i] == part.sep;
    assert text[i + 1] == part.digits[0];
    StartsWithSeparator(text, i + 1 + |part.digits|, parts[1..]);
    DigitsRun(text, i + 1, part.digits);
  }

  lemma {:induction false} PartsRun(text: string, i: nat, parts: seq<Part>)
    requires Printable(parts) && At(text, i, RenderParts(parts)) && Stops(text, i + |RenderParts(parts)|)
    ensures Parts(text, i) == parts && PartsEnd(text, i) == i + |RenderParts(parts)|
    decreases |parts|
  {
    hide DigitsEnd, Stops, Printable, At, PartAt;
    if parts == [] {
      StopsHere(text, i);
    } else {
      FirstPart(text, i, parts);
      PartsRun(text, i + 1 + |parts[0].digits|, parts[1..]);
      assert parts == [parts[0]] + parts[1..];
    }
  }

  lemma StopsHere(text: string, i: nat)
    requires Stops(text, i)
    ensures !PartAt(text, i)
  {
  }

  lemma NumeralRun(text: string, i: nat, n: Numeral)
    requires n.head != "" && AllDigits(n.head) && Printable(n.parts)
    requires At(text, i, Render(n)) && Stops(text, i + |Render(n)|)
    ensures NumeralAt(text, i) && ReadNumeral(text, i) == n && NumeralEnd(text, i) == i + |Render(n)|
  {
    hide RenderParts, DigitsEnd, Stops;
    AtTwo(text, i, n.head, RenderParts(n.parts));
    assert text[i] == n.head[0];
    StartsWithSeparator(text, i + |n.head|, n.parts);
    DigitsRun(text, i, n.head);
    PartsRun(text, i + |n.head|, n.parts);
  }

  lemma WrittenIsPrintable(style: Style, cents: nat)
    ensures var n := Written(style, cents); n.head != "" && AllDigits(n.head) && Printable(n.parts)
  {
    hide Head, Thousands, Padded, Joined, Decimals;
    HeadAndThousands(Sep(style), cents / 100);
    TwoDecimals(cents);
  }

  lemma {:induction false} SpacesRun(text: string, i: nat, s: string)
    requires At(text, i, s) && AllSpaces(s) && (i + |s| < |text| ==> !IsSpace(text[i + |s|]))
    ensures SpacesEnd(text, i) == i + |s|
    decreases |s|
  {
    hide IsSpace;
    if s != "" {
      assert text[i] == s[0];
      assert At(text, i + 1, s[1..]) by {
        assert s == [s[0]] + s[1..];
        AtTwo(text, i, [s[0]], s[1..]);
      }
      SpacesRun(text, i + 1, s[1..]);
    }
  }

  predicate AllSpaces(s: string) {
    forall i :: 0 <= i < |s| ==> IsSpace(s[i])
  }

  lemma DigitIsNoSpace(c: char)
    requires IsDigit(c)
    ensures !IsSpace(c)
  {
  }

  /** A dollar sign, spaces and a written amount. */
  lemma DollarRun(text: string, i: nat, spaces: string, n: Numeral)
    requires n.head != "" && AllDigits(n.head) && Printable(n.parts) && AllSpaces(spaces)
    requires At(text, i, "$" + spaces + Render(n)) && Stops(text, i + 1 + |spaces| + |Render(n)|)
    ensures DollarAt(text, i) == Some(i + 1 + |spaces|) && ReadNumeral(text, i + 1 + |spaces|) == n
    ensures NumeralEnd(text, i + 1 + |spaces|) == i + 1 + |spaces| + |Render(n)|
  {
    hide Render, Stops, ReadNumeral, NumeralEnd, SpacesEnd, AllSpaces, IsSpace, IsDigit;
    AtTwo(text, i, "$" + spaces, Render(n));
    AtTwo(text, i, "$", spaces);
    assert text[i] == "$"[0];
    NumeralRun(text, i + 1 + |spaces|, n);
    DigitIsNoSpace(text[i + 1 + |spaces|]);
    SpacesRun(text, i + 1, spaces);
  }

  lemma {:induction false} NoSaleBefore(text: string, i: nat, j: nat)
    requires i <= j <= |text| && forall k :: i <= k < j ==> text[k] != '$'
    ensures FindSale(text, i) == FindSale(text, j)
    decreases j - i
  {
    hide ReadNumeral, SpacesEnd;
    if i < j {
      NoSaleBefore(text, i + 1, j);
    }
  }

  lemma {:induction false} NoTotalBefore(text: string, i: nat, j: nat)
    requires i <= j <= |text| && forall k :: i <= k < j ==> text[k] != '+'
    ensures FindTotal(text, i) == FindTotal(text, j)
    decreases j - i
  {
    hide ReadNumeral, SpacesEnd, DollarAt, BaseFollows;
    if i < j {
      NoTotalBefore(text, i + 1, j);
    }
  }

  predicate Is(w: Wording, text: string, breakdown: bool) {
    w.breakdown(text) == breakdown && (breakdown || w.sale(text)) && !w.payment(text)
  }

  /** An amount printed in a sale message, in either style, is the amount that is parsed. */
  lemma SaleRoundTrip(w: Wording, message: string, before: string, spaces: string, style: Style, cents: nat,
                      after: string)
    requires 0 < cents <= MAX_SAFE && '$' !in before && AllSpaces(spaces) && Stops(after, 0)
    requires Strip(message) == before + ("$" + spaces + Render(Written(style, cents))) + after
    requires Is(w, Strip(message), false)
    ensures ParseSellEarning(w, message) == Some(cents)
  {
    hide Strip, Written, Render, Stops, AllSpaces, FindTotal, ReadNumeral, Cents, WellFormed, DollarAt;
    var text, n := Strip(message), Written(style, cents);
    var amount := "$" + spaces + Render(n);
    var i := |before|;
    assert text == before + (amount + after);
    StopsAfter(text, before + amount, after);
    assert At(text, i, amount);
    WrittenIsPrintable(style, cents);
    DollarRun(text, i, spaces, n);
    assert forall k :: 0 <= k < i ==> text[k] == before[k];
    NoSaleBefore(text, 0, i);
    WrittenCents(style, cents);
  }

  lemma StopsAfter(text: string, before: string, after: string)
    requires text == before + after && Stops(after, 0)
    ensures Stops(text, |before|)
  {
    assert after != "" ==> text[|before|] == after[0];
    assert |after| > 1 ==> text[|before| + 1] == after[1];
  }

  /** What stands between the total and its breakdown. */
  lemma BaseRun(text: string, i: nat, s3: string, s4: string, s5: string)
    requires AllSpaces(s3) && AllSpaces(s4) && AllSpaces(s5) && At(text, i, s3 + ("(" + (s4 + ("Basis" + (s5 + ":")))))
    ensures BaseFollows(text, i)
  {
    hide IsSpace, AllSpaces, SpacesEnd, Lower, At, WordAt;
    AtTwo(text, i, s3, "(" + (s4 + ("Basis" + (s5 + ":"))));
    var open := i + |s3|;
    AtTwo(text, open, "(", s4 + ("Basis" + (s5 + ":")));
    AtTwo(text, open + 1, s4, "Basis" + (s5 + ":"));
    var word := open + 1 + |s4|;
    AtTwo(text, word, "Basis", s5 + ":");
    AtTwo(text, word + 5, s5, ":");
    AtFirst(text, open, "(");
    AtFirst(text, word, "Basis");
    AtFirst(text, word + 5 + |s5|, ":");
    AtFits(text, i, s3);
    AtFits(text, open + 1, s4);
    AtFits(text, word + 5, s5);
    NotSpaces();
    SpacesRun(text, i, s3);
    SpacesRun(text, open + 1, s4);
    SpacesRun(text, word + 5, s5);
    BaseWord(text, word);
  }

  lemma AtFirst(text: string, i: nat, s: string)
    requires At(text, i, s) && s != ""
    ensures i < |text| && text[i] == s[0]
  {
  }

  lemma AtFits(text: string, i: nat, s: string)
    requires At(text, i, s)
    ensures i + |s| <= |text|
  {
  }

  lemma NotSpaces()
    ensures !IsSpace('(') && !IsSpace('B') && !IsSpace(':') && !IsSpace('$')
  {
  }

  lemma BaseWord(text: string, i: nat)
    requires At(text, i, "Basis")
    ensures WordAt(text, i, "basis")
  {
    assert text[i..i + 5] == "Basis";
    assert text[i] == 'B' && text[i + 1] == 'a' && text[i + 2] == 's' && text[i + 3] == 'i' && text[i + 4] == 's';
    assert Lower('B') == 'b' && Lower('a') == 'a' && Lower('s') == 's' && Lower('i') == 'i';
  }

  /** In a message with a base and a bonus the total is what is parsed, whatever the base is. */
  lemma BreakdownRoundTrip(w: Wording, message: string, before: string, s1: string, s2: string, style: Style,
                           cents: nat,
                           s3: string, s4: string, s5: string, after: string)
    requires 0 < cents <= MAX_SAFE && '+' !in before
    requires AllSpaces(s1) && AllSpaces(s2) && AllSpaces(s3) && AllSpaces(s4) && AllSpaces(s5)
    requires Strip(message) ==
               before + ("+" + (s1 + (("$" + s2 + Render(Written(style, cents)))
                                      + (s3 + ("(" + (s4 + ("Basis" + (s5 + ":"))))))) + after)
    requires Is(w, Strip(message), true)
    ensures ParseSellEarning(w, message) == Some(cents)
  {
    hide Strip, Written, Render, Stops, AllSpaces, FindSale, ReadNumeral, Cents, WellFormed, DollarAt, BaseFollows,
      SpacesEnd,
      NumeralEnd, At, IsSpace, NumeralAt;
    var text, n := Strip(message), Written(style, cents);
    var amount, base := "$" + s2 + Render(n), s3 + ("(" + (s4 + ("Basis" + (s5 + ":"))));
    var i := |before|;
    Layout(text, before, s1, amount, base, after);
    var dollar := i + 1 + |s1|;
    BaseStops(text, dollar + |amount|, s3, "(" + (s4 + ("Basis" + (s5 + ":"))));
    WrittenIsPrintable(style, cents);
    DollarRun(text, dollar, s2, n);
    BaseRun(text, dollar + |amount|, s3, s4, s5);
    AtFits(text, dollar + |amount|, base);
    AtFirst(text, dollar, amount);
    NotSpaces();
    SpacesRun(text, i + 1, s1);
    NoTotalBefore(text, 0, i);
    WrittenCents(style, cents);
  }

  lemma Layout(text: string, before: string, s1: string, amount: string, base: string, after: string)
    requires text == before + ("+" + (s1 + (amount + base)) + after)
    ensures var i := |before|;
            && (forall k :: 0 <= k < i ==> text[k] == before[k]) && i < |text| && text[i] == '+'
            && At(text, i + 1, s1) && At(text, i + 1 + |s1|, amount) && At(text, i + 1 + |s1| + |amount|, base)
  {
    var i := |before|;
    assert At(text, i, "+" + (s1 + (amount + base)));
    AtTwo(text, i, "+", s1 + (amount + base));
    AtTwo(text, i + 1, s1, amount + base);
    AtTwo(text, i + 1 + |s1|, amount, base);
    assert text[i] == "+"[0];
  }

  lemma BaseStops(text: string, i: nat, spaces: string, rest: string)
    requires AllSpaces(spaces) && rest != "" && rest[0] == '(' && At(text, i, spaces + rest)
    ensures Stops(text, i)
  {
    assert text[i] == (spaces + rest)[0];
  }
}
