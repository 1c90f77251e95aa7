/** Sizes of huge pages as text, and reserving pages on every memory node. */
module HugePages {
  import opened Prelude
  import opened Numerals

  const BINARY_PREFIX := "KMG"

  /** Kilobytes in the unit number `k`. */
  function Unit(k: nat): (unit: nat)
    ensures unit > 0
  {
    if k == 0 then 1 else 1024 * Unit(k - 1)
  }

  /** A tenth of the binary logarithm, rounded down: the largest unit not above `kb`. */
  function UnitIndex(kb: nat, k: nat := 0): (index: nat)
    requires Unit(k) <= kb
    ensures Unit(index) <= kb < Unit(index + 1)
    decreases kb - Unit(k)
  {
    if kb < Unit(k + 1) then k else UnitIndex(kb, k + 1)
  }

  /** Zero and sizes of a terabyte or more cannot be shown. */
  function FmtMemsize(kb: nat): Option<string> {
    if kb == 0 || UnitIndex(kb) >= |BINARY_PREFIX| then None
    else Some(Decimal(kb / Unit(UnitIndex(kb))) + [BINARY_PREFIX[UnitIndex(kb)], 'b'])
  }

  function Upper(c: char): char {
    if 'a' <= c <= 'z' then 'A' + (c - 'a') else c
  }

  /** Which prefix `c` is, if any. */
  function PrefixIndex(c: char): Option<nat> {
    if c == 'K' then Some(0) else if c == 'M' then Some(1) else if c == 'G' then Some(2) else None
  }

  /** A trailing "b" is dropped. */
  function WithoutB(arg: string): string {
    if arg != "" && (arg[|arg| - 1] == 'b' || arg[|arg| - 1] == 'B') then arg[..|arg| - 1] else arg
  }

  /** A line end at the very end is ignored, as in the pattern's "$". */
  function WithoutLineEnd(text: string): string {
    if text != "" && text[|text| - 1] == '\n' then text[..|text| - 1] else text
  }

  /** Digits and perhaps a unit letter; without one the number counts bytes. */
  function SizeOf(line: string): Option<nat> {
    if line == "" then None
    else
      var end := |line| - 1;
      var prefix := PrefixIndex(Upper(line[end]));
      var digits := if prefix.Some? then line[..end] else line;
      if digits == "" || !AllDigits(digits, 10) then None
      else if prefix == None then Some(Value(digits, 10) / 1024)
      else Some(Value(digits, 10) * Unit(prefix.value))
  }

  function GetMemsize(arg: string): Option<nat> {
    SizeOf(WithoutLineEnd(WithoutB(arg)))
  }

  // ---- Round trip ----

  lemma {:induction false} UnitsGrow(j: nat, k: nat)
    requires j <= k
    ensures Unit(j) <= Unit(k)
  {
    if j < k {
      UnitsGrow(j, k - 1);
    }
  }

  lemma ShownBelow(kb: nat)
    requires kb > 0
    ensures UnitIndex(kb) < 3 <==> kb < 0x4000_0000
  {
    var k := UnitIndex(kb);
    assert Unit(0) == 1 && Unit(1) == 1024 * Unit(0) && Unit(2) == 1024 * Unit(1) && Unit(3) == 1024 * Unit(2);
    if k < 3 {
      UnitsGrow(k + 1, 3);
    } else {
      UnitsGrow(3, k);
    }
  }

  lemma IndexUnique(kb: nat, k: nat)
    requires Unit(k) <= kb < Unit(k + 1)
    ensures UnitIndex(kb) == k
  {
    var j := UnitIndex(kb);
    if j < k {
      UnitsGrow(j + 1, k);
    } else if k < j {
      UnitsGrow(k + 1, j);
    }
  }

  lemma SpelledWithB(text: string)
    requires text != "" && text[|text| - 1] !in {'b', 'B', '\n'}
    ensures GetMemsize(text + ['b']) == GetMemsize(text + ['B']) == GetMemsize(text) == SizeOf(text)
  {
    assert (text + ['b'])[..|text|] == text && (text + ['B'])[..|text|] == text;
    hide SizeOf;
  }

  lemma SizeWithLetter(digits: string, c: char, k: nat)
    requires digits != "" && AllDigits(digits, 10) && PrefixIndex(Upper(c)) == Some(k)
    ensures SizeOf(digits + [c]) == Some(Value(digits, 10) * Unit(k))
  {
    assert (digits + [c])[..|digits|] == digits;
    hide Value, Unit, AllDigits, Upper, PrefixIndex;
  }

  lemma SizeWithoutLetter(digits: string)
    requires digits != "" && AllDigits(digits, 10)
    ensures '0' <= digits[|digits| - 1] <= '9' && SizeOf(digits) == Some(Value(digits, 10) / 1024)
  {
    assert Digit(digits[|digits| - 1]) < 10;
    hide Value, Unit, AllDigits;
  }

  lemma AppendTwice(s: string, c: char, d: char)
    ensures s + [c] + [d] == s + [c, d]
  {
  }

  /** A unit letter may be of either case, and the "b" may be missing or upper-case; without a
      letter the number counts bytes. */
  lemma ParseSpellings(digits: string, c: char, k: nat)
    requires digits != "" && AllDigits(digits, 10) && PrefixIndex(Upper(c)) == Some(k)
    ensures GetMemsize(digits + [c]) == GetMemsize(digits + [c, 'b']) == GetMemsize(digits + [c, 'B'])
         == Some(Value(digits, 10) * Unit(k))
    ensures GetMemsize(digits) == GetMemsize(digits + ['b']) == GetMemsize(digits + ['B'])
         == Some(Value(digits, 10) / 1024)
  {
    SizeWithLetter(digits, c, k);
    SizeWithoutLetter(digits);
    SpelledWithB(digits + [c]);
    SpelledWithB(digits);
    AppendTwice(digits, c, 'b');
    AppendTwice(digits, c, 'B');
    hide GetMemsize, SizeOf, Value, Unit, AllDigits;
  }

  lemma UnitsAre()
    ensures Unit(0) == 1 && Unit(1) == 1024 && Unit(2) == 1024 * 1024 && Unit(3) == 1024 * 1024 * 1024
  {
    assert Unit(1) == 1024 * Unit(0) && Unit(2) == 1024 * Unit(1) && Unit(3) == 1024 * Unit(2);
  }

  /** K, M and G, in either case, stand for kilobytes, megabytes and gigabytes. */
  lemma ParseUnits(digits: string)
    requires digits != "" && AllDigits(digits, 10)
    ensures GetMemsize(digits + "K") == GetMemsize(digits + "k") == Some(Value(digits, 10))
    ensures GetMemsize(digits + "M") == GetMemsize(digits + "m") == Some(Value(digits, 10) * 1024)
    ensures GetMemsize(digits + "G") == GetMemsize(digits + "g") == Some(Value(digits, 10) * (1024 * 1024))
  {
    hide GetMemsize, Value, AllDigits, Unit;
    UnitsAre();
    ParseSpellings(digits, 'K', 0);
    ParseSpellings(digits, 'k', 0);
    ParseSpellings(digits, 'M', 1);
    ParseSpellings(digits, 'm', 1);
    ParseSpellings(digits, 'G', 2);
    ParseSpellings(digits, 'g', 2);
  }

  /** Digits, perhaps a unit letter, a line end and a "b", in that order. */
  predicate IsSizeText(arg: string, digits: string, letter: string, end: string, b: string) {
    && arg == digits + letter + end + b && digits != "" && AllDigits(digits, 10)
    && letter in {"", "K", "M", "G", "k", "m", "g"} && end in {"", "\n"} && b in {"", "b", "B"}
  }

  lemma UnitLetter(c: char)
    ensures PrefixIndex(Upper(c)).Some? <==> [c] in {"K", "M", "G", "k", "m", "g"}
    ensures PrefixIndex(Upper(c)).Some? ==> Digit(c) == 16 && c !in {'b', 'B', '\n'}
  {
  }

  /** The last character of digits and perhaps a letter. */
  lemma LastOf(digits: string, letter: string)
    requires digits != "" && AllDigits(digits, 10) && letter in {"", "K", "M", "G", "k", "m", "g"}
    ensures var t := digits + letter; t != "" && t[|t| - 1] !in {'b', 'B', '\n'}
  {
    assert Digit(digits[|digits| - 1]) < 10;
    assert letter == "" ==> digits + letter == digits;
  }

  lemma SizeText(arg: string, digits: string, letter: string, end: string, b: string)
    requires IsSizeText(arg, digits, letter, end, b)
    ensures WithoutLineEnd(WithoutB(arg)) == digits + letter && SizeOf(digits + letter).Some?
  {
    var t := digits + letter;
    LastOf(digits, letter);
    hide SizeOf;
    assert WithoutB(arg) == t + end by {
      assert b == "" ==> arg == t + end;
      assert b != "" ==> arg[..|arg| - 1] == t + end && arg[|arg| - 1] == b[0];
      assert end == "" ==> t + end == t;
    }
    assert WithoutLineEnd(t + end) == t by {
      assert end == "" ==> t + end == t;
      assert end != "" ==> (t + end)[..|t|] == t;
    }
    if letter == "" {
      assert t == digits;
      SizeWithoutLetter(digits);
    } else {
      UnitLetter(letter[0]);
      assert letter == [letter[0]];
      SizeWithLetter(digits, letter[0], PrefixIndex(Upper(letter[0])).value);
    }
  }

  lemma SizeParts(line: string) returns (digits: string, letter: string)
    requires SizeOf(line).Some?
    ensures IsSizeText(line, digits, letter, "", "")
  {
    var end := |line| - 1;
    UnitLetter(line[end]);
    if PrefixIndex(Upper(line[end])).Some? {
      digits, letter := line[..end], [line[end]];
      assert line == line[..end] + [line[end]];
    } else {
      digits, letter := line, "";
    }
    assert digits + letter + "" + "" == line;
  }

  /** Exactly these texts are sizes. */
  lemma ParseIff(arg: string)
    ensures GetMemsize(arg).Some? <==> exists digits, letter, end, b :: IsSizeText(arg, digits, letter, end, b)
  {
    hide SizeOf;
    if GetMemsize(arg).Some? {
      var text := WithoutB(arg);
      var line := WithoutLineEnd(text);
      var digits, letter := SizeParts(line);
      var end, b := if text == line then "" else "\n", if arg == text then "" else [arg[|arg| - 1]];
      assert text == line + end && arg == text + b;
      assert line == digits + letter by {
        assert digits + letter + "" + "" == digits + letter;
      }
      assert IsSizeText(arg, digits, letter, end, b);
    }
    forall digits, letter, end, b | IsSizeText(arg, digits, letter, end, b)
      ensures GetMemsize(arg).Some?
    {
      SizeText(arg, digits, letter, end, b);
    }
  }

  /** Reading back a number with a unit letter. */
  lemma ParseShown(n: nat, k: nat)
    requires k < 3
    ensures GetMemsize(Decimal(n) + [BINARY_PREFIX[k], 'b']) == Some(n * Unit(k))
  {
    DecimalDigits(n);
    hide GetMemsize, Decimal, Value, Unit, AllDigits;
    ParseSpellings(Decimal(n), BINARY_PREFIX[k], k);
  }

  lemma ShownAs(kb: nat)
    requires kb > 0 && UnitIndex(kb) < 3
    ensures var k := UnitIndex(kb); FmtMemsize(kb) == Some(Decimal(kb / Unit(k)) + [BINARY_PREFIX[k], 'b'])
  {
    hide Decimal, UnitIndex, Unit;
  }

  /** Whole numbers of kilobytes, megabytes and gigabytes below 1024 are shown as such. */
  lemma ShownTexts(n: nat)
    requires 0 < n < 1024
    ensures FmtMemsize(n) == Some(Decimal(n) + "Kb")
    ensures FmtMemsize(n * 1024) == Some(Decimal(n) + "Mb")
    ensures FmtMemsize(n * (1024 * 1024)) == Some(Decimal(n) + "Gb")
  {
    UnitsAre();
    hide FmtMemsize, UnitIndex, Decimal, Unit;
    IndexUnique(n, 0);
    IndexUnique(n * 1024, 1);
    IndexUnique(n * (1024 * 1024), 2);
    ShownAs(n);
    ShownAs(n * 1024);
    ShownAs(n * (1024 * 1024));
  }

  lemma Bigger(n: nat, d: nat, unit: nat)
    ensures n > d ==> n * unit >= d * unit + unit
  {
    if n > d {
      var e: nat := n - d - 1;
      assert n == d + 1 + e && n * unit == d * unit + unit + e * unit;
    }
  }

  lemma NoGap(n: nat, d: nat, unit: nat, r: nat)
    requires n * unit == d * unit + r && r < unit
    ensures n == d
  {
    Bigger(n, d, unit);
    Bigger(d, n, unit);
  }

  lemma QuotientUnique(a: nat, unit: nat, n: nat)
    requires unit > 0 && a == n * unit
    ensures a / unit == n
  {
    var d, r := a / unit, a % unit;
    assert a == d * unit + r;
    NoGap(n, d, unit, r);
  }

  lemma Rounded(kb: nat, unit: nat)
    requires 0 < unit <= kb
    ensures (kb / unit) * unit == kb - kb % unit
    ensures unit <= kb - kb % unit && (kb - kb % unit) / unit == kb / unit
  {
    var n := kb / unit;
    QuotientUnique(n * unit, unit, n);
  }

  /** Shown exactly below a terabyte; parsing what is shown gives the largest multiple of the
      unit not above the size, so the size itself when it is a multiple. */
  lemma ParseFormat(kb: nat)
    ensures FmtMemsize(kb).Some? <==> 0 < kb < 0x4000_0000
    ensures FmtMemsize(kb).Some? ==>
              kb > 0 && GetMemsize(FmtMemsize(kb).value) == Some(kb - kb % Unit(UnitIndex(kb)))
  {
    if kb > 0 {
      ShownBelow(kb);
      var k := UnitIndex(kb);
      if k < 3 {
        ParseShown(kb / Unit(k), k);
        Rounded(kb, Unit(k));
        ShownAs(kb);
      }
    }
    hide *;
  }

  lemma RoundingKeepsIndex(kb: nat)
    requires kb > 0
    ensures var unit := Unit(UnitIndex(kb));
            kb - kb % unit > 0 && UnitIndex(kb - kb % unit) == UnitIndex(kb) && (kb - kb % unit) / unit == kb / unit
  {
    var unit := Unit(UnitIndex(kb));
    Rounded(kb, unit);
    IndexUnique(kb - kb % unit, UnitIndex(kb));
  }

  /** Showing, reading and showing again changes nothing. */
  lemma FormatParseFormat(kb: nat)
    requires FmtMemsize(kb).Some?
    ensures var again := GetMemsize(FmtMemsize(kb).value);
            again.Some? && FmtMemsize(again.value) == FmtMemsize(kb)
  {
    ParseFormat(kb);
    RoundingKeepsIndex(kb);
    hide GetMemsize, Decimal, UnitIndex;
  }

  // ---- Reserving pages ----

  /** The huge pages of one memory node, by page size. What the kernel makes of a request is
      passed in as `granted`. */
  class HugepageRes {
    const validPageSizes: set<nat>
    var pages: map<nat, nat>

    constructor (sizes: set<nat>)
      ensures validPageSizes == sizes && pages == map sz <- sizes :: 0
    {
      validPageSizes := sizes;
      pages := map sz <- sizes :: 0;
    }

    method Set(sz: nat, granted: nat) returns (ok: bool)
      modifies this
      ensures ok <==> sz in validPageSizes
      ensures pages == if ok then old(pages)[sz := granted] else old(pages)
    {
      ok := sz in validPageSizes;
      if ok {
        pages := pages[sz := granted];
      }
    }

    method Get(sz: nat) returns (n: nat)
      requires sz in pages
      ensures n == pages[sz]
    {
      n := pages[sz];
    }
  }

  datatype ReserveError = BadSize | NoPageSize | NotAMultiple | InvalidPageSize(node: nat) | Shortfall(node: nat)

  /** The node at which reserving stops, if any. */
  function StopsAt(e: ReserveError): Option<nat> {
    if e.InvalidPageSize? || e.Shortfall? then Some(e.node) else None
  }

  /** Ask every node in turn for `req` pages, up to the first that fails. */
  method ReserveOnAll(hpRes: seq<HugepageRes>, sz: nat, req: nat, granted: seq<nat>)
      returns (error: Option<ReserveError>)
    requires |granted| == |hpRes|
    modifies hpRes
    ensures error == None ==> forall i | 0 <= i < |hpRes| :: sz in hpRes[i].pages && hpRes[i].pages[sz] == req
    ensures error == None <==> forall i | 0 <= i < |hpRes| :: sz in hpRes[i].validPageSizes && granted[i] == req
    ensures error.Some? ==> StopsAt(error.value).Some? && StopsAt(error.value).value < |hpRes|
    ensures error.Some? ==>
              var k := StopsAt(error.value).value;
              if sz in hpRes[k].validPageSizes then error.value == Shortfall(k) && granted[k] != req
              else error.value == InvalidPageSize(k)
    ensures error.Some? ==> forall i | 0 <= i < StopsAt(error.value).value ::
              hpRes[i] != hpRes[StopsAt(error.value).value] ==> sz in hpRes[i].pages && hpRes[i].pages[sz] == req
    ensures error.Some? ==> forall i | StopsAt(error.value).value < i < |hpRes| ::
              hpRes[i] !in hpRes[..StopsAt(error.value).value + 1] ==> hpRes[i].pages == old(hpRes[i].pages)
  {
    for i := 0 to |hpRes|
      invariant forall j | 0 <= j < i :: granted[j] == req && sz in hpRes[j].validPageSizes
      invariant forall j | 0 <= j < i :: sz in hpRes[j].pages && hpRes[j].pages[sz] == req
      invariant forall j | i <= j < |hpRes| && hpRes[j] !in hpRes[..i] :: hpRes[j].pages == old(hpRes[j].pages)
    {
      assert hpRes[i] in hpRes[..i + 1];
      assert forall hp :: hp in hpRes[..i] ==> hp in hpRes[..i + 1];
      var ok := hpRes[i].Set(sz, granted[i]);
      if !ok {
        return Some(InvalidPageSize(i));
      }
      var got := hpRes[i].Get(sz);
      if got != req {
        return Some(Shortfall(i));
      }
    }
    error := None;
  }

  /** How many pages make up the requested size, if it is a whole number of pages. */
  function Wanted(memSize: string, pagesizeKb: nat): Option<nat> {
    var size := GetMemsize(memSize);
    if size.Some? && pagesizeKb > 0 && size.value % pagesizeKb == 0 then Some(size.value / pagesizeKb) else None
  }

  lemma WantedIsExact(memSize: string, pagesizeKb: nat, n: nat)
    requires pagesizeKb > 0
    ensures Wanted(memSize, pagesizeKb) == Some(n) <==> GetMemsize(memSize) == Some(n * pagesizeKb)
  {
    hide GetMemsize;
    QuotientUnique(n * pagesizeKb, pagesizeKb, n);
  }

  /** On success every node holds the pages that make up exactly the requested size. After a
      failure at some node, the nodes before it keep theirs and those after it are as they were. */
  method TryReserveHugePages(hpRes: seq<HugepageRes>, memSize: string, pagesizeKb: nat, granted: seq<nat>)
      returns (r: Result<nat, ReserveError>)
    requires |granted| == |hpRes|
    modifies hpRes
    ensures r.Success? ==>
              && Wanted(memSize, pagesizeKb) == Some(r.value)
              && forall i | 0 <= i < |hpRes| :: pagesizeKb in hpRes[i].pages && hpRes[i].pages[pagesizeKb] == r.value
    ensures r.Success? <==>
              && Wanted(memSize, pagesizeKb).Some?
              && forall i | 0 <= i < |hpRes| ::
                   pagesizeKb in hpRes[i].validPageSizes && Some(granted[i]) == Wanted(memSize, pagesizeKb)
    ensures Wanted(memSize, pagesizeKb) == None ==>
              && r == Failure(if GetMemsize(memSize) == None then BadSize
                              else if pagesizeKb == 0 then NoPageSize else NotAMultiple)
              && forall hp <- hpRes :: hp.pages == old(hp.pages)
    ensures r.Failure? && Wanted(memSize, pagesizeKb).Some? ==>
              && StopsAt(r.error).Some? && StopsAt(r.error).value < |hpRes|
              && (forall i | 0 <= i < StopsAt(r.error).value :: hpRes[i] != hpRes[StopsAt(r.error).value] ==>
                    pagesizeKb in hpRes[i].pages && hpRes[i].pages[pagesizeKb] == Wanted(memSize, pagesizeKb).value)
              && (forall i | StopsAt(r.error).value < i < |hpRes| ::
                    hpRes[i] !in hpRes[..StopsAt(r.error).value + 1] ==> hpRes[i].pages == old(hpRes[i].pages))
  {
    var reserve := GetMemsize(memSize);
    if reserve == None {
      return Failure(BadSize);
    }
    if pagesizeKb == 0 {
      return Failure(NoPageSize);
    }
    var reserveKb := reserve.value;
    if reserveKb % pagesizeKb != 0 {
      return Failure(NotAMultiple);
    }
    var req := reserveKb / pagesizeKb;
    assert Wanted(memSize, pagesizeKb) == Some(req);
    hide GetMemsize, Wanted;
    var error := ReserveOnAll(hpRes, pagesizeKb, req, granted);
    r := if error == None then Success(req) else Failure(error.value);
  }
}
