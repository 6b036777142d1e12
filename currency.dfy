/** The currency table: the symbol of each listed ISO code, the sorted list
    of codes offered in the settings, the symbol lookup with its fallback
    and the two amount formats, which put the symbol in front of the amount
    as the `en-US` locale writes it. */
module Currency {
  import opened Common
  import Strings
  import Seqs
  import Arith

  /** `CURRENCY_SYMBOLS`: an object literal, so each code appears once. */
  const SYMBOLS: map<string, string> := map[
    "USD" := "$", "EUR" := "€", "GBP" := "£", "JPY" := "¥", "CNY" := "¥",
    "INR" := "₹", "AUD" := "A$", "CAD" := "C$", "CHF" := "CHF", "SEK" := "kr",
    "NOK" := "kr", "DKK" := "kr", "PLN" := "zł", "RUB" := "₽", "BRL" := "R$",
    "MXN" := "$", "ZAR" := "R", "SGD" := "S$", "HKD" := "HK$", "KRW" := "₩",
    "TRY" := "₺", "NZD" := "NZ$", "THB" := "฿", "IDR" := "Rp", "PHP" := "₱",
    "MYR" := "RM", "VND" := "₫", "AED" := "د.إ", "SAR" := "﷼", "ILS" := "₪",
    "CLP" := "$", "ARS" := "$", "COP" := "$", "PEN" := "S/", "CZK" := "Kč",
    "HUF" := "Ft", "RON" := "lei", "BGN" := "лв", "HRK" := "kn", "ISK" := "kr",
    "UAH" := "₴"]

  /** The parameter default of both formats. */
  const DEFAULT_CURRENCY: string := "USD"

  // ---------------------------------------------------------------- lookup

  /** `CURRENCY_SYMBOLS[currencyCode] || currencyCode`. */
  function Symbol(code: string): (r: string)
    ensures code in SYMBOLS && SYMBOLS[code] != "" ==> r == SYMBOLS[code]
    ensures code !in SYMBOLS ==> r == code
    ensures code != "" ==> r != ""
  {
    if code in SYMBOLS && SYMBOLS[code] != "" then SYMBOLS[code] else code
  }

  /** The lookup is not one-to-one: five codes share the dollar sign, so a
      symbol alone does not tell the currency. */
  lemma DollarShared()
    ensures Symbol("USD") == Symbol("MXN") == Symbol("CLP") == Symbol("ARS") == Symbol("COP") == "$"
    ensures exists a, b :: a != b && a in SYMBOLS && b in SYMBOLS && Symbol(a) == Symbol(b)
  {
    assert SYMBOLS["USD"] == "$";
    assert SYMBOLS["MXN"] == "$";
    assert "USD" != "MXN";
  }

  // ---------------------------------------------------------------- sorted codes

  predicate StrictlyAscending(s: seq<string>) {
    forall i, j :: 0 <= i < j < |s| ==> Strings.Less(s[i], s[j])
  }

  predicate Ascending(s: seq<string>) {
    forall i, j :: 0 <= i < j < |s| ==> Strings.LessEq(s[i], s[j])
  }

  /** A non-empty finite set of strings has a least element. */
  lemma {:induction false} LeastExists(codes: set<string>)
    requires codes != {}
    ensures exists m :: m in codes && forall c :: c in codes ==> Strings.LessEq(m, c)
    decreases |codes|
  {
    var x :| x in codes;
    var rest := codes - {x};
    if rest == {} {
      assert codes == {x};
      assert forall c :: c in codes ==> Strings.LessEq(x, c);
    } else {
      LeastExists(rest);
      var m :| m in rest && forall c :: c in rest ==> Strings.LessEq(m, c);
      var w := LeastOfAdded(rest, x, m);
      assert codes == rest + {x};
    }
  }

  /** The least of a set with one more string: the old least or the new one. */
  lemma LeastOfAdded(rest: set<string>, x: string, m: string) returns (w: string)
    requires m in rest && forall c :: c in rest ==> Strings.LessEq(m, c)
    ensures w in rest + {x} && forall c :: c in rest + {x} ==> Strings.LessEq(w, c)
  {
    if Strings.Less(m, x) {
      w := m;
    } else {
      w := x;
      if m != x { Strings.LessTotal(m, x); }
      forall c | c in rest
        ensures Strings.LessEq(x, c)
      {
        Strings.LessEqTransitive(x, m, c);
      }
    }
  }

  /** The codes of a set, listed in ascending order: what `.sort()` makes
      of `Object.keys`, whatever order those come in (see `SortIsUnique`). */
  ghost function SortedCodes(codes: set<string>): (r: seq<string>)
    ensures StrictlyAscending(r)
    ensures forall c :: c in r <==> c in codes
    ensures |r| == |codes|
    decreases |codes|
  {
    if codes == {} then []
    else
      LeastExists(codes);
      var m :| m in codes && forall c :: c in codes ==> Strings.LessEq(m, c);
      var rest := SortedCodes(codes - {m});
      LeastBeforeRest(m, codes, rest);
      [m] + rest
  }

  /** The least code followed by the sorted rest lists the set ascending. */
  lemma LeastBeforeRest(m: string, codes: set<string>, rest: seq<string>)
    requires m in codes && forall c :: c in codes ==> Strings.LessEq(m, c)
    requires StrictlyAscending(rest) && forall c :: c in rest <==> c in codes - {m}
    ensures StrictlyAscending([m] + rest)
    ensures forall c :: c in [m] + rest <==> c in codes
  {
    var r := [m] + rest;
    forall i, j | 0 <= i < j < |r|
      ensures Strings.Less(r[i], r[j])
    {
      assert r[j] == rest[j - 1] && rest[j - 1] in rest;
      if i > 0 {
        assert r[i] == rest[i - 1];
      }
    }
  }

  /** `CURRENCIES`. */
  ghost const CURRENCIES: seq<string> := SortedCodes(SYMBOLS.Keys)

  /** An ascending list without repeats is strictly ascending. */
  lemma AscendingDistinct(s: seq<string>)
    requires Ascending(s)
    requires forall i, j :: 0 <= i < j < |s| ==> s[i] != s[j]
    ensures StrictlyAscending(s)
  {
  }

  /** A list is empty or holds its first element. */
  lemma EmptyOrHasFirst(s: seq<string>)
    ensures s == [] || s[0] in s
  {
  }

  /** Two strictly ascending lists of the same strings are the same list. */
  lemma {:induction false} StrictlyAscendingUnique(a: seq<string>, b: seq<string>)
    requires StrictlyAscending(a) && StrictlyAscending(b)
    requires forall c :: c in a <==> c in b
    ensures a == b
    decreases |a|
  {
    if a == [] {
      EmptyOrHasFirst(b);
    } else {
      assert b != [] by { assert a[0] in b; }
      SameFirst(a, b);
      forall c
        ensures c in a[1..] <==> c in b[1..]
      {
        if c in a[1..] {
          var i :| 1 <= i < |a| && a[i] == c;
          Strings.LessIrreflexive(c);
          assert c != a[0];
          assert c in b;
        }
        if c in b[1..] {
          var i :| 1 <= i < |b| && b[i] == c;
          Strings.LessIrreflexive(c);
          assert c != b[0];
          assert c in a;
        }
      }
      StrictlyAscendingUnique(a[1..], b[1..]);
    }
  }

  /** Two strictly ascending lists of the same strings start alike. */
  lemma SameFirst(a: seq<string>, b: seq<string>)
    requires StrictlyAscending(a) && StrictlyAscending(b) && a != [] && b != []
    requires forall c :: c in a <==> c in b
    ensures a[0] == b[0]
  {
    assert b[0] in a && a[0] in b;
    var j :| 0 <= j < |a| && a[j] == b[0];
    var k :| 0 <= k < |b| && b[k] == a[0];
    assert j > 0 ==> Strings.Less(a[0], b[0]);
    assert k > 0 ==> Strings.Less(b[0], a[0]);
    NotBothLess(a[0], b[0]);
  }

  lemma NotBothLess(x: string, y: string)
    ensures !(Strings.Less(x, y) && Strings.Less(y, x))
  {
    if Strings.Less(x, y) {
      Strings.LessAsymmetric(x, y);
    }
  }

  /** Whatever order `Object.keys` lists the codes in, sorting that listing
      gives `CURRENCIES`: it is ascending, has no repeat, and lists exactly
      the table's codes. */
  lemma SortIsUnique(keys: seq<string>, sorted: seq<string>)
    requires forall i, j :: 0 <= i < j < |keys| ==> keys[i] != keys[j]
    requires forall c :: c in keys <==> c in SYMBOLS
    requires multiset(sorted) == multiset(keys) && Ascending(sorted)
    ensures sorted == CURRENCIES
  {
    SortedListing(keys, sorted, SYMBOLS.Keys);
  }

  /** Sorting a listing without repeats of a set gives that set's sorted
      codes. */
  lemma SortedListing(keys: seq<string>, sorted: seq<string>, codes: set<string>)
    requires forall i, j :: 0 <= i < j < |keys| ==> keys[i] != keys[j]
    requires forall c :: c in keys <==> c in codes
    requires multiset(sorted) == multiset(keys) && Ascending(sorted)
    ensures sorted == SortedCodes(codes)
  {
    forall c
      ensures c in sorted <==> c in keys
    {
      assert c in sorted <==> c in multiset(sorted);
      assert c in keys <==> c in multiset(keys);
    }
    forall i, j | 0 <= i < j < |sorted|
      ensures sorted[i] != sorted[j]
    {
      if sorted[i] == sorted[j] {
        RepeatCountsTwice(sorted, i, j);
        DistinctCount(keys, sorted[i]);
      }
    }
    AscendingDistinct(sorted);
    StrictlyAscendingUnique(sorted, SortedCodes(codes));
  }

  /** A value at two positions occurs at least twice. */
  lemma RepeatCountsTwice(s: seq<string>, i: nat, j: nat)
    requires i < j < |s| && s[i] == s[j]
    ensures multiset(s)[s[i]] >= 2
  {
    var x := s[i];
    assert s == s[..i] + [x] + s[i + 1..j] + [x] + s[j + 1..];
  }

  /** In a list without repeats every element occurs at most once. */
  lemma {:induction false} DistinctCount(s: seq<string>, x: string)
    requires forall i, j :: 0 <= i < j < |s| ==> s[i] != s[j]
    ensures multiset(s)[x] <= 1
    decreases |s|
  {
    if s != [] {
      var t := s[1..];
      assert s == [s[0]] + t;
      DistinctCount(t, x);
      if s[0] == x {
        assert x !in t by {
          forall k | 0 <= k < |t|
            ensures t[k] != x
          {
            assert t[k] == s[k + 1];
          }
        }
        assert multiset(t)[x] == 0;
      }
    }
  }

  /** The list offered in the settings: each listed code once, in order. */
  lemma CurrenciesListEveryCode()
    ensures StrictlyAscending(CURRENCIES)
    ensures forall i, j :: 0 <= i < j < |CURRENCIES| ==> CURRENCIES[i] != CURRENCIES[j]
    ensures forall c :: c in CURRENCIES <==> c in SYMBOLS
  {
    forall i, j | 0 <= i < j < |CURRENCIES|
      ensures CURRENCIES[i] != CURRENCIES[j]
    {
      Strings.LessIrreflexive(CURRENCIES[i]);
    }
  }

  // ---------------------------------------------------------------- formats

  function Digit(d: nat): char
    requires d < 10
  {
    (d + '0' as int) as char
  }

  /** The three digits of a thousands group, with leading zeros. */
  function Pad3(k: nat): (r: string)
    requires k < 1000
    ensures |r| == 3 && forall i :: 0 <= i < 3 ==> Strings.IsDigit(r[i])
  {
    [Digit(k / 100), Digit(k / 10 % 10), Digit(k % 10)]
  }

  /** The two digits of the cents. */
  function Pad2(k: nat): (r: string)
    requires k < 100
    ensures |r| == 2 && forall i :: 0 <= i < 2 ==> Strings.IsDigit(r[i])
  {
    [Digit(k / 10), Digit(k % 10)]
  }

  /** The whole part of an amount as `en-US` writes it, a comma between
      groups of three digits. */
  function Grouped(n: nat): (r: string)
    ensures r != [] && Strings.IsDigit(r[0])
    ensures forall i :: 0 <= i < |r| ==> Strings.IsDigit(r[i]) || r[i] == ','
    decreases n
  {
    if n < 1000 then Strings.NatToString(n) else Grouped(n / 1000) + "," + Pad3(n % 1000)
  }

  predicate NotComma(c: char) { c != ',' }

  /** The text with its group separators taken out. */
  function StripCommas(s: string): string {
    Seqs.Filter(s, NotComma)
  }

  /** Appending one digit to a number's decimal writing. */
  lemma AppendDigit(x: nat, y: nat)
    requires x >= 1 && y < 10
    ensures Strings.NatToString(x * 10 + y) == Strings.NatToString(x) + [Digit(y)]
  {
    Arith.DivUnique(x * 10 + y, 10, x, y);
  }

  /** Appending a group of three digits. */
  lemma AppendGroup(a: nat, b: nat)
    requires a >= 1 && b < 1000
    ensures Strings.NatToString(a * 1000 + b) == Strings.NatToString(a) + Pad3(b)
  {
    var h, t, u := b / 100, b / 10 % 10, b % 10;
    ThreeDigits(b);
    var x1 := a * 10 + h;
    var x2 := x1 * 10 + t;
    assert a * 1000 + b == x2 * 10 + u;
    AppendDigit(a, h);
    AppendDigit(x1, t);
    AppendDigit(x2, u);
    var s := Strings.NatToString(a);
    assert Pad3(b) == [Digit(h), Digit(t), Digit(u)];
    assert s + [Digit(h)] + [Digit(t)] + [Digit(u)] == s + Pad3(b);
  }

  /** A number below 1000 from its three digits. */
  lemma ThreeDigits(b: nat)
    requires b < 1000
    ensures b == (b / 100) * 100 + (b / 10 % 10) * 10 + b % 10
  {
    var q := b / 10;
    Arith.DivUnique(b, 100, q / 10, (q % 10) * 10 + b % 10);
  }

  /** Taking the separators out gives back the plain decimal writing: the
      grouping only adds commas. */
  lemma {:induction false} GroupedDigits(n: nat)
    ensures StripCommas(Grouped(n)) == Strings.NatToString(n)
    decreases n
  {
    if n < 1000 {
      Seqs.FilterKeepsAll(Strings.NatToString(n), NotComma);
    } else {
      var a, b := n / 1000, n % 1000;
      GroupedDigits(a);
      StripGroup(Grouped(a), b);
      AppendGroup(a, b);
    }
  }

  /** Stripping a comma and a group of three digits after some text. */
  lemma StripGroup(g: string, b: nat)
    requires b < 1000
    ensures StripCommas(g + "," + Pad3(b)) == StripCommas(g) + Pad3(b)
  {
    Seqs.FilterConcat(g + ",", Pad3(b), NotComma);
    Seqs.FilterConcat(g, ",", NotComma);
    assert Seqs.Filter(",", NotComma) == [];
    Seqs.FilterKeepsAll(Pad3(b), NotComma);
  }

  /** The sign `toLocaleString` writes before a negative amount. */
  function Sign(n: int): string {
    if n < 0 then "-" else ""
  }

  function Abs(n: int): nat {
    if n < 0 then -n else n
  }

  /** `formatCurrency`: the symbol, then the amount with two decimals. The
      amount is given in hundredths, already rounded. */
  function FormatCurrency(hundredths: int, currency: Option<string>): string {
    Symbol(currency.GetOr(DEFAULT_CURRENCY)) + Sign(hundredths) + Grouped(Abs(hundredths) / 100) + "." +
      Pad2(Abs(hundredths) % 100)
  }

  /** `formatCurrencyCompact`: the symbol, then the amount with no
      decimals. The amount is given rounded to whole units. */
  function FormatCurrencyCompact(units: int, currency: Option<string>): string {
    Symbol(currency.GetOr(DEFAULT_CURRENCY)) + Sign(units) + Grouped(Abs(units))
  }

  /** The two-decimal text: after the symbol come the sign, the whole
      units and, after the point, exactly two digits; without separators
      the digits are the amount's, a hundredth being the last digit. */
  lemma FormatCurrencyParts(hundredths: int, currency: Option<string>)
    ensures var s := Symbol(currency.GetOr(DEFAULT_CURRENCY));
            var r := FormatCurrency(hundredths, currency);
            exists whole: string, cents: string ::
              r == s + Sign(hundredths) + whole + "." + cents &&
              StripCommas(whole) == Strings.NatToString(Abs(hundredths) / 100) &&
              |cents| == 2 && (cents[0] as int - '0' as int) * 10 + (cents[1] as int - '0' as int) == Abs(hundredths) % 100
  {
    var whole, cents := Grouped(Abs(hundredths) / 100), Pad2(Abs(hundredths) % 100);
    GroupedDigits(Abs(hundredths) / 100);
    assert FormatCurrency(hundredths, currency) ==
      Symbol(currency.GetOr(DEFAULT_CURRENCY)) + Sign(hundredths) + whole + "." + cents;
  }

  /** The compact text: the symbol, the sign, then the whole units' digits
      with separators. */
  lemma FormatCompactParts(units: int, currency: Option<string>)
    ensures var r := FormatCurrencyCompact(units, currency);
            exists whole: string ::
              r == Symbol(currency.GetOr(DEFAULT_CURRENCY)) + Sign(units) + whole &&
              StripCommas(whole) == Strings.NatToString(Abs(units))
  {
    GroupedDigits(Abs(units));
    assert FormatCurrencyCompact(units, currency) ==
      Symbol(currency.GetOr(DEFAULT_CURRENCY)) + Sign(units) + Grouped(Abs(units));
  }

  /** Without a currency both formats write dollars. */
  lemma DefaultIsDollars(hundredths: int, units: int)
    ensures FormatCurrency(hundredths, None) == FormatCurrency(hundredths, Some("USD"))
    ensures FormatCurrency(hundredths, None)[0] == '$'
    ensures FormatCurrencyCompact(units, None) == FormatCurrencyCompact(units, Some("USD"))
    ensures FormatCurrencyCompact(units, None)[0] == '$'
  {
  }
}
