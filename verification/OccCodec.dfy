/** OCC option symbols: root, yymmdd, C or P, and the strike in thousandths on eight digits. The Dealer
    and the Floor Broker each have a parser; both read ASCII digits and whitespace here. */
module OccCodec {
  import opened Wrappers

  datatype Right = Call | Put

  datatype Contract = Contract(root: string, expiration: string, right: Right, strike: real)

  // ----- digits

  predicate IsDigit(c: char) {
    '0' <= c <= '9'
  }

  predicate AllDigits(s: string) {
    forall k :: 0 <= k < |s| ==> IsDigit(s[k])
  }

  predicate AllUpper(s: string) {
    forall k :: 0 <= k < |s| ==> 'A' <= s[k] <= 'Z'
  }

  function DigitValue(c: char): nat
    requires IsDigit(c)
  {
    c as nat - '0' as nat
  }

  function DigitChar(n: nat): (c: char)
    requires n < 10
    ensures IsDigit(c) && DigitValue(c) == n
  {
    ('0' as nat + n) as char
  }

  /** int(s) */
  function Val(s: string): nat
    requires AllDigits(s)
  {
    if s == "" then 0 else Val(s[..|s| - 1]) * 10 + DigitValue(s[|s| - 1])
  }

  function Pow10(w: nat): (p: nat)
    ensures p >= 1
  {
    if w == 0 then 1 else 10 * Pow10(w - 1)
  }

  /** `n` on `w` digits, with leading zeros. */
  function Padded(n: nat, w: nat): (s: string)
    requires n < Pow10(w)
    ensures |s| == w && AllDigits(s)
  {
    if w == 0 then "" else Padded(n / 10, w - 1) + [DigitChar(n % 10)]
  }

  lemma {:induction false} ValOfPadded(n: nat, w: nat)
    requires n < Pow10(w)
    ensures Val(Padded(n, w)) == n
  {
    if w > 0 {
      ValOfPadded(n / 10, w - 1);
      assert Padded(n, w)[..w - 1] == Padded(n / 10, w - 1);
    }
  }

  lemma {:induction false} PaddedOfVal(s: string)
    requires AllDigits(s)
    ensures Val(s) < Pow10(|s|) && Padded(Val(s), |s|) == s
  {
    if s != "" {
      var n := |s| - 1;
      PaddedOfVal(s[..n]);
      assert Val(s) / 10 == Val(s[..n]) && Val(s) % 10 == DigitValue(s[n]);
      assert s == s[..n] + [s[n]];
    }
  }

  // ----- the format

  function RightChar(right: Right): char {
    if right == Call then 'C' else 'P'
  }

  function Encode(root: string, ymd: string, right: Right, thousandths: nat): string
    requires thousandths < Pow10(8)
  {
    root + ymd + [RightChar(right)] + Padded(thousandths, 8)
  }

  predicate Fields(root: string, ymd: string, thousandths: nat) {
    AllUpper(root) && |ymd| == 6 && AllDigits(ymd) && thousandths < Pow10(8)
  }

  /** What the two regular expressions share: any root of upper-case letters. */
  predicate Matches(t: string) {
    && |t| >= 15
    && AllUpper(t[..|t| - 15]) && AllDigits(t[|t| - 15..|t| - 9])
    && (t[|t| - 9] == 'C' || t[|t| - 9] == 'P')
    && AllDigits(t[|t| - 8..])
  }

  function Root(t: string): string
    requires Matches(t)
  {
    t[..|t| - 15]
  }

  function Ymd(t: string): string
    requires Matches(t)
  {
    t[|t| - 15..|t| - 9]
  }

  function RightOf(t: string): Right
    requires Matches(t)
  {
    if t[|t| - 9] == 'C' then Call else Put
  }

  function Thousandths(t: string): nat
    requires Matches(t)
  {
    Val(t[|t| - 8..])
  }

  lemma EncodedMatches(root: string, ymd: string, right: Right, thousandths: nat)
    requires Fields(root, ymd, thousandths)
    ensures var t := Encode(root, ymd, right, thousandths);
      Matches(t) && Root(t) == root && Ymd(t) == ymd && RightOf(t) == right && Thousandths(t) == thousandths
  {
    var t := Encode(root, ymd, right, thousandths);
    var n := |root|;
    ValOfPadded(thousandths, 8);
    assert t[..n] == root;
    assert t[n..n + 6] == ymd;
    assert t[n + 6] == RightChar(right);
    assert t[n + 7..] == Padded(thousandths, 8);
  }

  lemma MatchesEncoded(t: string)
    requires Matches(t)
    ensures Fields(Root(t), Ymd(t), Thousandths(t))
    ensures t == Encode(Root(t), Ymd(t), RightOf(t), Thousandths(t))
  {
    PaddedOfVal(t[|t| - 8..]);
    var n := |t| - 15;
    assert t == t[..n] + t[n..n + 6] + [t[n + 6]] + t[n + 7..];
  }

  // ----- str.strip

  predicate IsSpace(c: char) {
    c == ' ' || '\t' <= c <= '\r' || 28 as char <= c <= 31 as char
  }

  function StripLeft(s: string): string {
    if s != "" && IsSpace(s[0]) then StripLeft(s[1..]) else s
  }

  function StripRight(s: string): string {
    if s != "" && IsSpace(s[|s| - 1]) then StripRight(s[..|s| - 1]) else s
  }

  function Strip(s: string): string {
    StripRight(StripLeft(s))
  }

  /** Nothing to strip at either end. */
  predicate Trim(s: string) {
    s == "" || (!IsSpace(s[0]) && !IsSpace(s[|s| - 1]))
  }

  // ----- the Dealer's parser

  function DealerDate(ymd: string): string
    requires |ymd| == 6
  {
    "20" + ymd[..2] + "-" + ymd[2..4] + "-" + ymd[4..]
  }

  function ParseOccSymbol(sym: string): Option<Contract> {
    var t := Strip(sym);
    if Matches(t) && 1 <= |Root(t)| <= 6 then
      Some(Contract(Root(t), DealerDate(Ymd(t)), RightOf(t), Thousandths(t) as real / 1000.0))
    else None
  }

  lemma EncodedIsTrim(root: string, ymd: string, right: Right, thousandths: nat)
    requires Fields(root, ymd, thousandths)
    ensures Trim(Encode(root, ymd, right, thousandths))
  {
    EncodedMatches(root, ymd, right, thousandths);
    var t := Encode(root, ymd, right, thousandths);
    assert t[0] == if root == "" then ymd[0] else root[0];
    assert t[|t| - 1] == Padded(thousandths, 8)[7];
  }

  lemma DealerReads(root: string, ymd: string, right: Right, thousandths: nat, sym: string)
    requires Fields(root, ymd, thousandths) && 1 <= |root| <= 6
    requires Strip(sym) == Encode(root, ymd, right, thousandths)
    ensures ParseOccSymbol(sym) == Some(Contract(root, DealerDate(ymd), right, thousandths as real / 1000.0))
  {
    EncodedMatches(root, ymd, right, thousandths);
  }

  lemma StripOfTrim(s: string)
    requires Trim(s)
    ensures Strip(s) == s
  {
  }

  /** Writing the fields and reading them back gives the fields. */
  lemma DealerRoundTrip(root: string, ymd: string, right: Right, thousandths: nat)
    requires Fields(root, ymd, thousandths) && 1 <= |root| <= 6
    ensures ParseOccSymbol(Encode(root, ymd, right, thousandths))
         == Some(Contract(root, DealerDate(ymd), right, thousandths as real / 1000.0))
  {
    EncodedIsTrim(root, ymd, right, thousandths);
    StripOfTrim(Encode(root, ymd, right, thousandths));
    DealerReads(root, ymd, right, thousandths, Encode(root, ymd, right, thousandths));
  }

  ghost predicate Encodes(t: string, root: string, ymd: string, right: Right, thousandths: nat) {
    Fields(root, ymd, thousandths) && t == Encode(root, ymd, right, thousandths)
  }

  /** Accepted are exactly the written symbols with a root of one to six letters. */
  lemma DealerAccepts(sym: string)
    ensures ParseOccSymbol(sym).Some?
      <==> exists root, ymd, right, thousandths :: 1 <= |root| <= 6 && Encodes(Strip(sym), root, ymd, right, thousandths)
  {
    var t := Strip(sym);
    if ParseOccSymbol(sym).Some? {
      MatchesEncoded(t);
      assert Encodes(t, Root(t), Ymd(t), RightOf(t), Thousandths(t));
    }
    forall root, ymd, right, thousandths | 1 <= |root| <= 6 && Encodes(t, root, ymd, right, thousandths)
      ensures ParseOccSymbol(sym).Some?
    {
      DealerReads(root, ymd, right, thousandths, sym);
    }
  }

  // ----- the Floor Broker's parser

  predicate LeapYear(year: nat) {
    year % 4 == 0 && (year % 100 != 0 || year % 400 == 0)
  }

  function DaysIn(year: nat, month: nat): nat {
    if month == 2 then (if LeapYear(year) then 29 else 28)
    else if month in {4, 6, 9, 11} then 30
    else 31
  }

  /** %y: 69 to 99 lie in the last century. */
  function Year(yy: nat): nat {
    if yy <= 68 then 2000 + yy else 1900 + yy
  }

  predicate ValidDate(ymd: string)
    requires |ymd| == 6 && AllDigits(ymd)
  {
    var year, month, day := Year(Val(ymd[..2])), Val(ymd[2..4]), Val(ymd[4..]);
    1 <= month <= 12 && 1 <= day <= DaysIn(year, month)
  }

  /** date.isoformat, of a date whose year has four digits. */
  function IsoDate(year: nat, month: nat, day: nat): string
    requires year < Pow10(4) && month < Pow10(2) && day < Pow10(2)
  {
    Padded(year, 4) + "-" + Padded(month, 2) + "-" + Padded(day, 2)
  }

  /** The pattern's `$` also matches before one final newline. */
  function DropNewline(sym: string): string {
    if sym != "" && sym[|sym| - 1] == '\n' then sym[..|sym| - 1] else sym
  }

  lemma TwoDigits(s: string)
    requires |s| == 2 && AllDigits(s)
    ensures Val(s) < Pow10(2) && Padded(Val(s), 2) == s
  {
    PaddedOfVal(s);
  }

  function BrokerDate(ymd: string): string
    requires |ymd| == 6 && AllDigits(ymd)
  {
    TwoDigits(ymd[..2]);
    TwoDigits(ymd[2..4]);
    TwoDigits(ymd[4..]);
    assert Pow10(2) == 100 && Pow10(4) == 10000;
    IsoDate(Year(Val(ymd[..2])), Val(ymd[2..4]), Val(ymd[4..]))
  }

  function ParseOccContractSymbol(sym: string): Option<Contract> {
    var t := DropNewline(sym);
    if Matches(t) && 1 <= |Root(t)| && ValidDate(Ymd(t)) then
      Some(Contract(Root(t), BrokerDate(Ymd(t)), RightOf(t), Thousandths(t) as real / 1000.0))
    else None
  }

  lemma BrokerRoundTrip(root: string, ymd: string, right: Right, thousandths: nat)
    requires Fields(root, ymd, thousandths) && 1 <= |root| && ValidDate(ymd)
    ensures ParseOccContractSymbol(Encode(root, ymd, right, thousandths))
         == Some(Contract(root, BrokerDate(ymd), right, thousandths as real / 1000.0))
  {
    EncodedMatches(root, ymd, right, thousandths);
    EncodedIsTrim(root, ymd, right, thousandths);
  }

  // ----- the two together

  lemma {:induction false} YearDigits(yy: nat, century: nat)
    requires yy < 100 && century < 100
    ensures 100 * century + yy < Pow10(4) && Padded(100 * century + yy, 4) == Padded(century, 2) + Padded(yy, 2)
  {
    assert Pow10(2) == 100 && Pow10(4) == 10000;
    var n := 100 * century + yy;
    assert n / 10 / 10 == century && n / 10 % 10 == yy / 10 && n % 10 == yy % 10;
    assert Padded(n, 4) == Padded(n / 10, 3) + [DigitChar(n % 10)];
    assert Padded(n / 10, 3) == Padded(n / 10 / 10, 2) + [DigitChar(n / 10 % 10)];
    assert Padded(yy, 2) == Padded(yy / 10, 1) + [DigitChar(yy % 10)];
    assert Padded(yy / 10, 1) == Padded(yy / 10 / 10, 0) + [DigitChar(yy / 10 % 10)];
  }

  /** The two dates are the same text exactly up to year 68. */
  lemma DatesAgreeIff(ymd: string)
    requires |ymd| == 6 && AllDigits(ymd)
    ensures DealerDate(ymd) == BrokerDate(ymd) <==> Val(ymd[..2]) <= 68
  {
    var yy := Val(ymd[..2]);
    TwoDigits(ymd[..2]);
    TwoDigits(ymd[2..4]);
    TwoDigits(ymd[4..]);
    YearDigits(yy, 20);
    YearDigits(yy, 19);
    TwentyAndNineteen();
    if yy <= 68 {
      assert BrokerDate(ymd) == "20" + ymd[..2] + "-" + ymd[2..4] + "-" + ymd[4..];
    } else {
      assert BrokerDate(ymd)[0] == '1';
    }
  }

  lemma TwentyAndNineteen()
    ensures 20 < Pow10(2) && Padded(20, 2) == "20" && Padded(19, 2) == "19"
  {
    assert Pow10(2) == 100 && Pow10(1) == 10;
    assert Padded(2, 1) == Padded(0, 0) + [DigitChar(2)];
    assert Padded(1, 1) == Padded(0, 0) + [DigitChar(1)];
  }

  lemma SameText(sym: string)
    requires Matches(DropNewline(sym)) && |DropNewline(sym)| > 15
    ensures Strip(sym) == DropNewline(sym)
  {
    var t := DropNewline(sym);
    MatchesEncoded(t);
    EncodedIsTrim(Root(t), Ymd(t), RightOf(t), Thousandths(t));
    StripOfTrim(t);
    assert StripLeft(sym) == sym;
    if t != sym {
      assert StripRight(sym) == StripRight(t);
    }
  }

  /** Where the Floor Broker's parser accepts, the Dealer's does too unless the root is too long; and
      then they read the same contract exactly when the year is at most 68. */
  lemma ParsersAgree(sym: string)
    requires ParseOccContractSymbol(sym).Some?
    ensures ParseOccSymbol(sym).Some? <==> |ParseOccContractSymbol(sym).value.root| <= 6
    ensures ParseOccSymbol(sym).Some?
      ==> (ParseOccSymbol(sym) == ParseOccContractSymbol(sym) <==> Val(Ymd(Strip(sym))[..2]) <= 68)
  {
    SameText(sym);
    DatesAgreeIff(Ymd(DropNewline(sym)));
  }

  // ----- known symbols

  lemma ValSnoc(s: string, c: char)
    requires AllDigits(s) && IsDigit(c)
    ensures AllDigits(s + [c]) && Val(s + [c]) == 10 * Val(s) + DigitValue(c)
  {
    assert (s + [c])[..|s|] == s;
  }

  lemma HalfStrike()
    ensures AllDigits("0045") && Val("0045") == 45
  {
    assert Val("") == 0;
    ValSnoc("", '0');
    ValSnoc("0", '0');
    ValSnoc("00", '4');
    ValSnoc("004", '5');
    assert "" + ['0'] == "0" && "0" + ['0'] == "00" && "00" + ['4'] == "004" && "004" + ['5'] == "0045";
  }

  lemma KnownStrike()
    ensures AllDigits("00450500") && Val("00450500") == 450500
  {
    HalfStrike();
    ValSnoc("0045", '0');
    ValSnoc("00450", '5');
    ValSnoc("004505", '0');
    ValSnoc("0045050", '0');
    assert "0045" + ['0'] == "00450" && "00450" + ['5'] == "004505" && "004505" + ['0'] == "0045050" && "0045050" + ['0'] == "00450500";
  }

  /** SPY, 19 January 2024, 450.50: a call and a put. */
  lemma KnownCall()
    ensures ParseOccSymbol("SPY240119C00450500") == ParseOccContractSymbol("SPY240119C00450500") == Some(Contract("SPY", "2024-01-19", Call, 450.5))
  {
    KnownSymbol('C', "SPY240119C00450500");
  }

  lemma KnownPut()
    ensures ParseOccSymbol("SPY240119P00450500") == ParseOccContractSymbol("SPY240119P00450500") == Some(Contract("SPY", "2024-01-19", Put, 450.5))
  {
    KnownSymbol('P', "SPY240119P00450500");
  }

  lemma KnownParts(c: char, sym: string)
    requires (c == 'C' || c == 'P') && sym == "SPY240119" + [c] + "00450500"
    ensures Matches(sym) && Root(sym) == "SPY" && Ymd(sym) == "240119" && RightOf(sym) == (if c == 'C' then Call else Put)
    ensures Thousandths(sym) == 450500 && Strip(sym) == sym == DropNewline(sym)
  {
    KnownStrike();
    assert sym[..3] == "SPY" && sym[3..9] == "240119" && sym[9] == c && sym[10..] == "00450500";
    assert Trim(sym);
    StripOfTrim(sym);
  }

  lemma KnownSymbol(c: char, sym: string)
    requires (c == 'C' || c == 'P') && sym == "SPY240119" + [c] + "00450500"
    ensures ParseOccSymbol(sym) == ParseOccContractSymbol(sym) == Some(Contract("SPY", "2024-01-19", if c == 'C' then Call else Put, 450.5))
  {
    KnownParts(c, sym);
    KnownDate();
    DatesAgreeIff("240119");
  }

  lemma TwoDigitVal(s: string)
    requires |s| == 2 && AllDigits(s)
    ensures Val(s) == 10 * DigitValue(s[0]) + DigitValue(s[1])
  {
    assert s[..1] == [s[0]] && s[..1][..0] == "";
    assert Val(s[..1]) == DigitValue(s[0]);
  }

  lemma KnownDate()
    ensures AllDigits("240119") && ValidDate("240119") && Val("240119"[..2]) == 24 && DealerDate("240119") == "2024-01-19"
  {
    var ymd := "240119";
    assert ymd[..2] == "24" && ymd[2..4] == "01" && ymd[4..] == "19";
    TwoDigitVal("24");
    TwoDigitVal("01");
    TwoDigitVal("19");
    assert DealerDate(ymd) == "2024-01-19";
  }

  /** The last day of a month is a date and the next is not: leap years by the Gregorian rule. */
  lemma MonthEnds(year: nat, month: nat)
    requires 1 <= month <= 12
    ensures 28 <= DaysIn(year, month) <= 31
    ensures DaysIn(year, month) == 31 <==> month in {1, 3, 5, 7, 8, 10, 12}
    ensures DaysIn(year, month) == 30 <==> month in {4, 6, 9, 11}
    ensures DaysIn(year, month) == 29 <==> month == 2 && ((year % 4 == 0 && year % 100 != 0) || year % 400 == 0)
  {
  }
}
