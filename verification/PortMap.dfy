/** Reading the `--portmap` argument: a list of "(a,b)" groups with anything between them. */
module PortMap {
  import opened Prelude
  import opened Traffic
  import opened Ports
  import opened Numerals

  const MAX_PAIRS: nat := MAX_PORTS / 2

  /** Size of the buffer a group is copied to, with its terminator. */
  const FIELD_SIZE: nat := 256

  /** Where `c` first occurs in `s`, or the length of `s`. */
  function Find(s: string, c: char): (r: nat)
    ensures r <= |s|
  {
    if s == [] || s[0] == c then 0 else 1 + Find(s[1..], c)
  }

  lemma {:induction false} FindIs(before: string, c: char, rest: string)
    requires c !in before && (rest == [] || rest[0] == c)
    ensures Find(before + rest, c) == |before|
  {
    if before != [] {
      assert (before + rest)[1..] == before[1..] + rest;
      FindIs(before[1..], c, rest);
    }
  }

  // ---- Numbers, as strtoul with base 0 reads them ----

  predicate IsSpace(c: char) {
    c == ' ' || '\t' <= c <= '\r'
  }

  function SkipSpaces(t: string): string {
    if t != [] && IsSpace(t[0]) then SkipSpaces(t[1..]) else t
  }

  const ULONG_LIMIT: nat := 0x1_0000_0000_0000_0000

  datatype Numeral = Numeral(radix: nat, digits: string)

  /** Hexadecimal after "0x", octal after "0", decimal otherwise. */
  function NumeralOf(t: string): Numeral {
    if |t| >= 3 && t[0] == '0' && (t[1] == 'x' || t[1] == 'X') && Digit(t[2]) < 16 then
      Numeral(16, DigitsOf(t[2..], 16))
    else if t != [] && t[0] == '0' then
      Numeral(8, DigitsOf(t, 8))
    else
      Numeral(10, DigitsOf(t, 10))
  }

  /** No digits and overflow are errors; a negative number wraps around. */
  function Signed(negative: bool, n: Numeral): Option<nat> {
    var v := Value(n.digits, n.radix);
    if n.digits == [] || v >= ULONG_LIMIT then None
    else if negative then Some((ULONG_LIMIT - v) % ULONG_LIMIT)
    else Some(v)
  }

  /** Leading spaces and text after the digits are ignored, and a sign is allowed. */
  function Number(text: string): Option<nat> {
    var t := SkipSpaces(text);
    if t != [] && t[0] == '-' then Signed(true, NumeralOf(t[1..]))
    else if t != [] && t[0] == '+' then Signed(false, NumeralOf(t[1..]))
    else Signed(false, NumeralOf(t))
  }

  // ---- Groups ----

  function Port(text: string): Option<nat> {
    var n := Number(text);
    if n.Some? && n.value < MAX_PORTS then n else None
  }

  /** The text between the brackets: split at the first comma, which must have text after it. */
  function Group(field: string): Option<Pair> {
    var comma := Find(field, ',');
    if |field| >= FIELD_SIZE || comma + 1 >= |field| then None
    else
      var a, b := Port(field[..comma]), Port(field[comma + 1..]);
      if a.Some? && b.Some? then Some(Pair(a.value, b.value)) else None
  }

  /** All groups of a text, if each is well formed. */
  function Groups(text: string): (r: Option<seq<Pair>>)
    ensures r.Some? ==> Small(r.value)
    decreases |text|
  {
    var open := Find(text, '(');
    if open == |text| then Some([])
    else
      var after := text[open + 1..];
      var close := Find(after, ')');
      if close == |after| then None
      else
        var pair, rest := Group(after[..close]), Groups(after[close..]);
        if pair.Some? && rest.Some? then Some([pair.value] + rest.value) else None
  }

  /** What parsing yields: the groups, unless there are more than the table holds. */
  function PortMapOf(text: string): Option<seq<Pair>> {
    var r := Groups(text);
    if r.Some? && |r.value| <= MAX_PAIRS then r else None
  }

  function Prepend(done: seq<Pair>, rest: Option<seq<Pair>>): Option<seq<Pair>> {
    if rest.Some? then Some(done + rest.value) else None
  }

  lemma PrependMore(done: seq<Pair>, p: Pair, rest: Option<seq<Pair>>)
    ensures Prepend(done, Prepend([p], rest)) == Prepend(done + [p], rest)
  {
    assert done + [p] + [] == done + [p];
    if rest.Some? {
      assert done + ([p] + rest.value) == done + [p] + rest.value;
    }
  }

  lemma PrependNothing(pairs: seq<Pair>, r: Option<seq<Pair>>)
    ensures Prepend([], r) == r && Prepend(pairs, Some([])) == Some(pairs)
  {
    if r.Some? {
      assert [] + r.value == r.value;
    }
    assert pairs + [] == pairs;
  }

  method ParsePortPairConfig(arg: string) returns (r: Option<seq<Pair>>)
    ensures r == PortMapOf(arg)
    ensures r.Some? ==> Small(r.value) && |r.value| <= MAX_PAIRS
  {
    var pairs: seq<Pair> := [];
    var p0 := arg;
    hide Find, Group, Small;
    PrependNothing([], Groups(arg));
    while true
      invariant Groups(arg) == Prepend(pairs, Groups(p0))
      invariant |pairs| <= MAX_PAIRS
      decreases |p0|
    {
      var open := Find(p0, '(');
      if open == |p0| {
        PrependNothing(pairs, None);
        break;
      }
      var p := p0[open + 1..];
      var close := Find(p, ')');
      if close == |p| {
        return None;
      }
      var pair := Group(p[..close]);
      if pair == None {
        return None;
      }
      assert Groups(p0) == Prepend([pair.value], Groups(p[close..]));
      PrependMore(pairs, pair.value, Groups(p[close..]));
      hide Groups;
      if |pairs| >= MAX_PAIRS {
        return None;
      }
      pairs := pairs + [pair.value];
      p0 := p[close..];
    }
    r := Some(pairs);
  }

  // ---- Round trip ----

  function Printed(p: Pair): string {
    "(" + Decimal(p.a) + "," + Decimal(p.b) + ")"
  }

  /** The pairs with the separators around and between them. */
  function PrintedAll(pairs: seq<Pair>, separators: seq<string>): string
    requires |separators| == |pairs| + 1
  {
    if pairs == [] then separators[0]
    else separators[0] + Printed(pairs[0]) + PrintedAll(pairs[1..], separators[1..])
  }

  lemma NumeralOfDecimal(n: nat)
    ensures NumeralOf(Decimal(n)) == Numeral(if n == 0 then 8 else 10, Decimal(n))
    ensures Value(Decimal(n), if n == 0 then 8 else 10) == n
  {
    DecimalDigits(n);
    var t := Decimal(n);
    hide Decimal, DigitsOf;
    if n == 0 {
      DigitsOfDigits(t, 8);
      assert t[..|t| - 1] == [];
    } else {
      DigitsOfDigits(t, 10);
    }
  }

  lemma PlainDecimal(n: nat)
    ensures Decimal(n) != [] && SkipSpaces(Decimal(n)) == Decimal(n)
    ensures Decimal(n)[0] != '+' && Decimal(n)[0] != '-'
  {
    DecimalDigits(n);
    hide Decimal, Value, AllDigits;
  }

  lemma NumberOfDecimal(n: nat)
    ensures Number(Decimal(n)) == if n < ULONG_LIMIT then Some(n) else None
  {
    PlainDecimal(n);
    NumeralOfDecimal(n);
    hide Value, NumeralOf, Decimal, SkipSpaces;
  }

  lemma {:induction false} SpacesSkipped(spaces: string, t: string)
    requires (forall i | 0 <= i < |spaces| :: IsSpace(spaces[i])) && (t != [] ==> !IsSpace(t[0]))
    ensures SkipSpaces(spaces + t) == t
  {
    if spaces == [] {
      assert spaces + t == t;
    } else {
      assert (spaces + t)[1..] == spaces[1..] + t;
      SpacesSkipped(spaces[1..], t);
    }
  }

  lemma SignShown(spaces: string, sign: char, n: nat)
    requires (forall i | 0 <= i < |spaces| :: IsSpace(spaces[i])) && (sign == '+' || sign == '-')
    ensures var t := SkipSpaces(spaces + [sign] + Decimal(n));
            t != [] && t[0] == sign && t[1..] == Decimal(n)
  {
    var t := [sign] + Decimal(n);
    assert spaces + [sign] + Decimal(n) == spaces + t;
    SpacesSkipped(spaces, t);
    hide Decimal, SkipSpaces;
  }

  lemma SignedDecimal(negative: bool, n: nat)
    requires n < ULONG_LIMIT
    ensures Signed(negative, NumeralOf(Decimal(n))) == Some(if negative then (ULONG_LIMIT - n) % ULONG_LIMIT else n)
  {
    PlainDecimal(n);
    NumeralOfDecimal(n);
    hide Value, NumeralOf, Decimal;
  }

  lemma NumberAfterSign(spaces: string, sign: char, n: nat)
    requires (forall i | 0 <= i < |spaces| :: IsSpace(spaces[i])) && n < ULONG_LIMIT && (sign == '+' || sign == '-')
    ensures Number(spaces + [sign] + Decimal(n)) == Some(if sign == '-' then (ULONG_LIMIT - n) % ULONG_LIMIT else n)
  {
    SignShown(spaces, sign, n);
    SignedDecimal(sign == '-', n);
    hide Value, NumeralOf, Decimal, SkipSpaces, IsSpace, AllDigits, Signed;
  }

  /** The characters that count as spaces in the C locale. */
  const SPACES := {' ', '\t', '\n', '\U{B}', '\U{C}', '\r'}

  lemma SpacesAre(t: string)
    ensures forall i | 0 <= i < |t| :: IsSpace(t[i]) <==> t[i] in SPACES
  {
  }

  /** Leading spaces are skipped and a sign is allowed; a negative number wraps around. */
  lemma NumberSigned(spaces: string, n: nat)
    requires (forall i | 0 <= i < |spaces| :: spaces[i] in SPACES) && 0 < n < ULONG_LIMIT
    ensures Number(spaces + ['+'] + Decimal(n)) == Some(n)
    ensures Number(spaces + ['-'] + Decimal(n)) == Some(ULONG_LIMIT - n)
  {
    hide Number, Decimal, IsSpace;
    SpacesAre(spaces);
    NumberAfterSign(spaces, '+', n);
    NumberAfterSign(spaces, '-', n);
  }

  lemma {:induction false} LeadingZero(t: string, b: nat)
    ensures Value(['0'] + t, b) == Value(t, b)
  {
    if t == "" {
      assert ['0'][..0] == "";
    } else {
      assert (['0'] + t)[..|t|] == ['0'] + t[..|t| - 1];
      LeadingZero(t[..|t| - 1], b);
    }
  }

  lemma NoNumeral(t: string)
    requires t == "" || !('0' <= t[0] <= '9')
    ensures NumeralOf(t).digits == ""
  {
  }

  lemma HexNumeral(x: char, digits: string)
    requires digits != [] && AllDigits(digits, 16) && x in {'x', 'X'}
    ensures Number(['0', x] + digits) == Signed(false, Numeral(16, digits))
  {
    var t := ['0', x] + digits;
    assert t[2..] == digits && SkipSpaces(t) == t;
    DigitsOfDigits(digits, 16);
    hide Value, DigitsOf, SkipSpaces, Signed;
  }

  /** After "0x" or "0X" the digits are hexadecimal. */
  lemma NumberHex(x: char, n: nat)
    requires x in {'x', 'X'}
    ensures Number(['0', x] + InBase(n, 16)) == if n < ULONG_LIMIT then Some(n) else None
  {
    InBaseDigits(n, 16);
    HexNumeral(x, InBase(n, 16));
    hide InBase, Value, Number, AllDigits;
  }

  lemma OctalNumeral(digits: string)
    requires digits != [] && AllDigits(digits, 8)
    ensures Number(['0'] + digits) == Signed(false, Numeral(8, ['0'] + digits))
    ensures Value(['0'] + digits, 8) == Value(digits, 8)
  {
    var t := ['0'] + digits;
    assert t[1] == digits[0] && Digit(t[1]) < 8;
    assert SkipSpaces(t) == t && AllDigits(t, 8);
    DigitsOfDigits(t, 8);
    LeadingZero(digits, 8);
    hide Value, DigitsOf, SkipSpaces, Signed;
  }

  /** After "0" they are octal. */
  lemma NumberOctal(n: nat)
    ensures Number(['0'] + InBase(n, 8)) == if n < ULONG_LIMIT then Some(n) else None
  {
    InBaseDigits(n, 8);
    OctalNumeral(InBase(n, 8));
    hide InBase, Value, Number, AllDigits;
  }

  /** What follows the digits is ignored. */
  lemma NumberStops(n: nat, rest: string)
    requires n > 0 && (rest == "" || !('0' <= rest[0] <= '9'))
    ensures Number(Decimal(n) + rest) == if n < ULONG_LIMIT then Some(n) else None
  {
    DecimalDigits(n);
    var t := Decimal(n) + rest;
    assert t[0] == Decimal(n)[0] && SkipSpaces(t) == t;
    DigitsStop(Decimal(n), rest, 10);
    hide Value, DigitsOf, SkipSpaces, Decimal;
  }

  /** Without a digit behind spaces and sign there is no number. */
  lemma NoNumber(spaces: string, sign: string, rest: string)
    requires (forall i | 0 <= i < |spaces| :: spaces[i] in SPACES) && sign in {"", "+", "-"}
    requires rest == "" || !('0' <= rest[0] <= '9' || rest[0] in SPACES || rest[0] in {'+', '-'})
    ensures Number(spaces + sign + rest) == None
  {
    var t := sign + rest;
    assert spaces + sign + rest == spaces + t;
    assert rest != "" ==> t[|sign|] == rest[0];
    SpacesAre(spaces);
    SpacesSkipped(spaces, t);
    assert t[|sign|..] == rest;
    NoNumeral(rest);
    hide Value, SkipSpaces, DigitsOf, NumeralOf;
  }

  lemma ShortDecimal(n: nat)
    requires n < 100
    ensures |Decimal(n)| <= 2
  {
    assert InBase(n, 10) == (if n < 10 then [] else InBase(n / 10, 10)) + [DIGITS[n % 10]];
    assert n >= 10 ==> InBase(n / 10, 10) == [DIGITS[n / 10]];
  }

  lemma PortOfDecimal(n: nat)
    ensures Port(Decimal(n)) == if n < MAX_PORTS then Some(n) else None
    ensures n < MAX_PORTS ==> |Decimal(n)| <= 2
  {
    NumberOfDecimal(n);
    if n < MAX_PORTS {
      ShortDecimal(n);
    }
    hide Number, Decimal;
  }

  lemma GroupIs(a: string, b: string)
    requires ',' !in a && b != []
    ensures Group(a + "," + b)
            == if |a| + 1 + |b| < FIELD_SIZE && Port(a).Some? && Port(b).Some?
               then Some(Pair(Port(a).value, Port(b).value)) else None
  {
    var field := a + "," + b;
    assert field == a + ("," + b);
    FindIs(a, ',', "," + b);
    assert field[..|a|] == a && field[|a| + 1..] == b;
    hide Port, Find;
  }

  /** A group without a comma, or with nothing behind it, is refused. */
  lemma GroupNeedsComma(a: string)
    requires ',' !in a
    ensures Group(a) == Group(a + ",") == None
  {
    FindIs(a, ',', "");
    FindIs(a, ',', ",");
    assert a + "" == a;
    hide Find;
  }

  lemma GroupOfPrinted(p: Pair)
    ensures Group(Decimal(p.a) + "," + Decimal(p.b))
            == if p.a < MAX_PORTS && p.b < MAX_PORTS then Some(p) else None
  {
    DecimalDigits(p.a);
    DecimalDigits(p.b);
    hide Decimal, Group, Port, Value, AllDigits;
    GroupIs(Decimal(p.a), Decimal(p.b));
    PortOfDecimal(p.a);
    PortOfDecimal(p.b);
  }

  ghost predicate NoneOpens(separators: seq<string>) {
    forall i | 0 <= i < |separators| :: '(' !in separators[i]
  }

  lemma PrintedNoBrackets(p: Pair)
    ensures ')' !in Decimal(p.a) + "," + Decimal(p.b)
  {
    DecimalDigits(p.a);
    DecimalDigits(p.b);
    hide Decimal;
  }

  /** A group behind a text without "(" is read first. */
  lemma ReadGroup(before: string, field: string, rest: string)
    requires '(' !in before && ')' !in field
    ensures var pair, more := Group(field), Groups(")" + rest);
            Groups(before + "(" + field + ")" + rest)
            == if pair.Some? && more.Some? then Some([pair.value] + more.value) else None
  {
    var text := before + "(" + field + ")" + rest;
    assert text == before + ("(" + field + ")" + rest);
    FindIs(before, '(', "(" + field + ")" + rest);
    var after := text[|before| + 1..];
    assert after == field + (")" + rest);
    FindIs(field, ')', ")" + rest);
    assert after[..|field|] == field && after[|field|..] == ")" + rest;
    hide Group, Find;
  }

  lemma PrintedShape(before: string, p: Pair, rest: string)
    ensures before + Printed(p) + rest == before + "(" + (Decimal(p.a) + "," + Decimal(p.b)) + ")" + rest
  {
    hide Decimal;
  }

  /** One group is read off the front, leaving its closing bracket for the next search. */
  lemma FirstGroup(before: string, p: Pair, rest: string)
    requires '(' !in before
    ensures Groups(before + Printed(p) + rest)
            == if p.a < MAX_PORTS && p.b < MAX_PORTS then Prepend([p], Groups(")" + rest)) else None
  {
    var field := Decimal(p.a) + "," + Decimal(p.b);
    PrintedNoBrackets(p);
    PrintedShape(before, p, rest);
    ReadGroup(before, field, rest);
    GroupOfPrinted(p);
    hide Decimal, Group, Groups, Printed;
  }

  lemma NoGroups(text: string)
    requires '(' !in text
    ensures Groups(text) == Some([])
  {
    FindIs(text, '(', "");
    assert text + "" == text;
  }

  lemma SmallCons(p: Pair, pairs: seq<Pair>)
    ensures Small([p] + pairs) <==> p.a < MAX_PORTS && p.b < MAX_PORTS && Small(pairs)
  {
    var all := [p] + pairs;
    assert all[0] == p && forall i | 0 <= i < |pairs| :: pairs[i] == all[i + 1];
    if Small(pairs) && p.a < MAX_PORTS && p.b < MAX_PORTS {
      forall i | 0 <= i < |all|
        ensures all[i].a < MAX_PORTS && all[i].b < MAX_PORTS
      {
        assert i > 0 ==> all[i] == pairs[i - 1];
      }
    }
  }

  lemma Bracket(pairs: seq<Pair>, separators: seq<string>)
    requires |separators| == |pairs| + 1
    ensures PrintedAll(pairs, [")" + separators[0]] + separators[1..]) == ")" + PrintedAll(pairs, separators)
  {
    var next := [")" + separators[0]] + separators[1..];
    assert next[1..] == separators[1..];
  }

  lemma {:induction false} GroupsOfPrinted(pairs: seq<Pair>, separators: seq<string>)
    requires |separators| == |pairs| + 1 && NoneOpens(separators)
    ensures Groups(PrintedAll(pairs, separators)) == if Small(pairs) then Some(pairs) else None
  {
    if pairs == [] {
      NoGroups(separators[0]);
    } else {
      var next := [")" + separators[1]] + separators[2..];
      assert next == [")" + separators[1..][0]] + separators[1..][1..];
      GroupsOfPrinted(pairs[1..], next);
      FirstGroup(separators[0], pairs[0], PrintedAll(pairs[1..], separators[1..]));
      Bracket(pairs[1..], separators[1..]);
      SmallCons(pairs[0], pairs[1..]);
      hide Groups, Small, Printed;
      assert pairs == [pairs[0]] + pairs[1..];
    }
  }

  /** Printing a list of pairs, with separators free of "(", and parsing it gives the list back
      exactly when the pairs fit the table; any other list is refused. */
  lemma RoundTrip(pairs: seq<Pair>, separators: seq<string>)
    requires |separators| == |pairs| + 1 && NoneOpens(separators)
    ensures PortMapOf(PrintedAll(pairs, separators))
            == if Small(pairs) && |pairs| <= MAX_PAIRS then Some(pairs) else None
  {
    GroupsOfPrinted(pairs, separators);
  }
}
