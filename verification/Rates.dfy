/** Reading and writing rates (bucket/parse.go, bucket/rate.go).

    strconv's numeral reader and printer are parameters: of the one number a rate is printed
    as, the text is assumed to hold no slash and to be read back. */
module Rates {
  import opened Reals
  import opened Configs

  /** A Limit is a float64, in requests a second. */
  type Limit = Float

  const INF: Limit := Number(MAX_FLOAT)

  /** strconv.ParseFloat. */
  datatype Reading = Read(value: Float) | OutOfRange | Malformed

  datatype Why = Empty | BadPeriod | NoPeriod | TooLarge | NoNumber | NotANumber | NotPositive

  datatype Parsed = Ok(limit: Limit) | Bad(why: Why)

  // ----------------------------------------------------------------- tidying the text

  /** unicode.IsSpace */
  predicate IsSpace(c: char) {
    var n := c as int;
    9 <= n <= 13 || n == 32 || n == 0x85 || n == 0xA0 || n == 0x1680 || 0x2000 <= n <= 0x200A
    || n == 0x2028 || n == 0x2029 || n == 0x202F || n == 0x205F || n == 0x3000
  }

  /** unicode.ToLower on the letters whose lower case is one a rate can be spelled with:
      besides ASCII those are the dotted capital I and the Kelvin sign. Whatever another
      letter is folded to, no period, word or numeral contains it. */
  function Lower(c: char): char {
    if 'A' <= c <= 'Z' then c + 'a' - 'A'
    else if c as int == 0x130 then 'i'
    else if c as int == 0x212A then 'k'
    else c
  }

  /** strings.ToLower(strings.Join(strings.Fields(s), "")) */
  function Tidy(s: string): string {
    if s == "" then ""
    else if IsSpace(s[0]) then Tidy(s[1..])
    else [Lower(s[0])] + Tidy(s[1..])
  }

  // ------------------------------------------------------------------------- parsing

  const UNITS: map<string, real> := map[
    "s" := 1.0, "sec" := 1.0, "secs" := 1.0, "second" := 1.0, "seconds" := 1.0,
    "m" := 60.0, "min" := 60.0, "mins" := 60.0, "minute" := 60.0, "minutes" := 60.0,
    "h" := 3600.0, "hr" := 3600.0, "hrs" := 3600.0, "hour" := 3600.0, "hours" := 3600.0]

  const RP_UNITS: map<string, real> := map["rps" := 1.0, "rpm" := 60.0, "rph" := 3600.0]

  /** Where the first slash is, or |s|. */
  function Slash(s: string): (i: nat)
    ensures i <= |s| && '/' !in s[..i] && (i < |s| ==> s[i] == '/')
  {
    if s == "" || s[0] == '/' then 0 else 1 + Slash(s[1..])
  }

  predicate EndsIn(s: string, suffix: string) {
    |suffix| <= |s| && s[|s| - |suffix|..] == suffix
  }

  datatype Halves = Halves(num: string, unit: string) | Broken(why: Why)

  /** The range over rpUnits, visiting its keys in the given order. */
  function CutUnit(s: string, order: seq<string>): Halves {
    if order == [] then Broken(NoPeriod)
    else if EndsIn(s, order[0]) then Halves(s[..|s| - |order[0]|], order[0])
    else CutUnit(s, order[1..])
  }

  /** Some order a range over rpUnits may take. */
  ghost predicate Visits(order: seq<string>) {
    (forall i :: 0 <= i < |order| ==> order[i] in RP_UNITS) && forall u :: u in RP_UNITS ==> u in order
  }

  function Split(s: string, order: seq<string>): Halves {
    var i := Slash(s);
    if i < |s| then
      if s[i + 1..] in UNITS then Halves(s[..i], s[i + 1..]) else Broken(BadPeriod)
    else CutUnit(s, order)
  }

  /** The period's length; a Go map answers 0 for a name it does not have. */
  function Period(unit: string): real {
    if unit in UNITS then UNITS[unit] else if unit in RP_UNITS then RP_UNITS[unit] else 0.0
  }

  lemma {:induction false} SplitNamesAPeriod(s: string, order: seq<string>)
    requires Visits(order)
    ensures Split(s, order).Halves? ==> Period(Split(s, order).unit) >= 1.0
  {
    CutNamesAPeriod(s, order);
  }

  lemma {:induction false} CutNamesAPeriod(s: string, order: seq<string>)
    requires forall i :: 0 <= i < |order| ==> order[i] in RP_UNITS
    ensures CutUnit(s, order).Halves? ==> CutUnit(s, order).unit in RP_UNITS
    decreases |order|
  {
    if order != [] {
      CutNamesAPeriod(s, order[1..]);
    }
  }

  /** What ParseLimit makes of the number in front of a period. */
  function PerPeriod(reading: Reading, period: real): Parsed
    requires period >= 1.0
  {
    match reading
    case OutOfRange => Bad(TooLarge)
    case Malformed => Bad(NoNumber)
    case Read(NaN) => Bad(NotANumber)
    case Read(NegInf) => Bad(NotPositive)
    case Read(PosInf) => Ok(INF)
    case Read(Number(n)) => if n <= 0.0 then Bad(NotPositive) else Ok(Finite(Number(n / period)))
  }

  ghost function ParseLimit(raw: string, read: string -> Reading, order: seq<string>): Parsed
    requires Visits(order)
  {
    var s := Tidy(raw);
    if s == "" then Bad(Empty)
    else if s == "inf" || s == "infinite" || s == "unlimited" then Ok(INF)
    else
      SplitNamesAPeriod(s, order);
      match Split(s, order)
      case Broken(why) => Bad(why)
      case Halves(num, unit) => PerPeriod(read(num), Period(unit))
  }

  // ------------------------------------------------------------------------- printing

  /** Comparisons and products of float64s, as Limit.String uses them. */
  predicate AtLeastOne(f: Float) {
    f.PosInf? || (f.Number? && f.value >= 1.0)
  }

  function TimesBy(f: Float, k: real): Float {
    if f.Number? then Number(f.value * k) else f
  }

  /** Limit.String */
  function Text(l: Limit, write: Float -> string): string {
    if l == INF then "Inf"
    else if l.NegInf? || (l.Number? && l.value <= 0.0) then "0"
    else if AtLeastOne(l) then write(l) + "/s"
    else if AtLeastOne(TimesBy(l, 60.0)) then write(TimesBy(l, 60.0)) + "/min"
    else write(TimesBy(l, 3600.0)) + "/hour"
  }

  /** The printer's text for f is read back, whatever case it is put in. */
  predicate Inverts(read: string -> Reading, write: Float -> string, f: Float) {
    '/' !in write(f) && read(Tidy(write(f))) == Read(f)
  }

  /** The period a rate above zero is written in. */
  function Scale(l: Limit): (r: (real, string))
    ensures r.0 >= 1.0
  {
    if AtLeastOne(l) then (1.0, "s") else if AtLeastOne(TimesBy(l, 60.0)) then (60.0, "min") else (3600.0, "hour")
  }

  /** The number a rate above zero is printed as. */
  function Printed(l: Limit): Float {
    TimesBy(l, Scale(l).0)
  }

  // ---------------------------------------------------------------------- properties

  lemma {:induction false} TidyJoins(a: string, b: string)
    ensures Tidy(a + b) == Tidy(a) + Tidy(b)
    decreases |a|
  {
    if a == "" {
      assert a + b == b;
    } else {
      assert (a + b)[1..] == a[1..] + b;
      TidyJoins(a[1..], b);
    }
  }

  lemma {:induction false} TidyKeepsSlashes(s: string)
    ensures '/' in Tidy(s) <==> '/' in s
    decreases |s|
  {
    if s != "" {
      TidyKeepsSlashes(s[1..]);
      assert Lower(s[0]) == '/' <==> s[0] == '/';
    }
  }

  lemma {:induction false} TidySpaces(w: string)
    requires forall i :: 0 <= i < |w| ==> IsSpace(w[i])
    ensures Tidy(w) == ""
    decreases |w|
  {
    if w != "" {
      TidySpaces(w[1..]);
    }
  }

  /** Space anywhere, inside the number or the period included, changes nothing. */
  lemma SpaceIsIgnored(a: string, w: string, b: string, read: string -> Reading, order: seq<string>)
    requires Visits(order) && forall i :: 0 <= i < |w| ==> IsSpace(w[i])
    ensures ParseLimit(a + w + b, read, order) == ParseLimit(a + b, read, order)
  {
    TidySpaces(w);
    TidyJoins(a + w, b);
    TidyJoins(a, w);
    TidyJoins(a, b);
    assert Tidy(a) + "" == Tidy(a);
  }

  predicate SameLetters(s: string, t: string) {
    |s| == |t| && forall i :: 0 <= i < |s| ==> Lower(s[i]) == Lower(t[i])
  }

  lemma {:induction false} TidyIgnoresCase(s: string, t: string)
    requires SameLetters(s, t)
    ensures Tidy(s) == Tidy(t)
    decreases |s|
  {
    if s != "" {
      assert Lower(s[0]) == Lower(t[0]);
      TidyIgnoresCase(s[1..], t[1..]);
    }
  }

  lemma CaseIsIgnored(s: string, t: string, read: string -> Reading, order: seq<string>)
    requires Visits(order) && SameLetters(s, t)
    ensures ParseLimit(s, read, order) == ParseLimit(t, read, order)
  {
    TidyIgnoresCase(s, t);
  }

  lemma {:induction false} CutHits(s: string, order: seq<string>, u: string)
    requires u in order && EndsIn(s, u) && forall i :: 0 <= i < |order| ==> |order[i]| == |u|
    ensures CutUnit(s, order) == Halves(s[..|s| - |u|], u)
    decreases |order|
  {
    if order[0] != u {
      assert !EndsIn(s, order[0]);
      CutHits(s, order[1..], u);
    }
  }

  lemma {:induction false} CutMisses(s: string, order: seq<string>)
    requires forall u :: u in order ==> !EndsIn(s, u)
    ensures CutUnit(s, order) == Broken(NoPeriod)
    decreases |order|
  {
    if order != [] {
      assert order[0] in order;
      CutMisses(s, order[1..]);
    }
  }

  lemma SuffixesAreThreeLong(u: string)
    requires u in RP_UNITS
    ensures |u| == 3
  {
  }

  lemma CutIgnoresOrder(s: string, order1: seq<string>, order2: seq<string>)
    requires Visits(order1) && Visits(order2)
    ensures CutUnit(s, order1) == CutUnit(s, order2)
  {
    forall u | u in RP_UNITS
      ensures |u| == 3
    {
      SuffixesAreThreeLong(u);
    }
    if u :| u in RP_UNITS && EndsIn(s, u) {
      CutHits(s, order1, u);
      CutHits(s, order2, u);
    } else {
      CutMisses(s, order1);
      CutMisses(s, order2);
    }
  }

  /** The answer does not depend on the order Go happens to walk its map in. */
  lemma MapOrderIsIgnored(raw: string, read: string -> Reading, order1: seq<string>, order2: seq<string>)
    requires Visits(order1) && Visits(order2)
    ensures ParseLimit(raw, read, order1) == ParseLimit(raw, read, order2)
  {
    CutIgnoresOrder(Tidy(raw), order1, order2);
  }

  lemma {:induction false} SlashAt(a: string, b: string)
    requires '/' !in a
    ensures Slash(a + "/" + b) == |a|
    decreases |a|
  {
    var s := a + "/" + b;
    if a != "" {
      assert s[1..] == a[1..] + "/" + b;
      SlashAt(a[1..], b);
    }
  }

  lemma SplitSlashed(num: string, unit: string, order: seq<string>)
    requires unit in UNITS && '/' !in num
    ensures Split(num + "/" + unit, order) == Halves(num, unit)
  {
    var s := num + "/" + unit;
    SlashAt(num, unit);
    assert s[..|num|] == num && s[|num| + 1..] == unit && |num| < |s|;
  }

  lemma SlashIsNoWord(s: string)
    requires '/' in s
    ensures s != "" && s != "inf" && s != "infinite" && s != "unlimited"
  {
  }

  lemma TidySlashed(num: string, unit: string)
    requires Tidy(unit) == unit && '/' !in num
    ensures Tidy(num + "/" + unit) == Tidy(num) + "/" + unit && '/' !in Tidy(num)
  {
    TidyJoins(num + "/", unit);
    TidyJoins(num, "/");
    TidyKeepsSlashes(num);
    assert Tidy("/") == "/";
  }

  /** The spellings of a second, a minute and an hour behind a slash. */
  predicate Spells(unit: string, seconds: int) {
    || (seconds == 1 && unit in {"s", "sec", "secs", "second", "seconds"})
    || (seconds == 60 && unit in {"m", "min", "mins", "minute", "minutes"})
    || (seconds == 3600 && unit in {"h", "hr", "hrs", "hour", "hours"})
  }

  /** What a number in front of a period of that many seconds comes to: the number shared out
      over them when it is one above zero, no limit when it is infinite, and otherwise what
      is wrong with it. */
  predicate PerSeconds(reading: Reading, seconds: int, parsed: Parsed)
    requires seconds > 0
  {
    && (reading.OutOfRange? ==> parsed == Bad(TooLarge))
    && (reading.Malformed? ==> parsed == Bad(NoNumber))
    && (reading == Read(NaN) ==> parsed == Bad(NotANumber))
    && (reading == Read(NegInf) ==> parsed == Bad(NotPositive))
    && (reading == Read(PosInf) ==> parsed == Ok(INF))
    && (reading.Read? && reading.value.Number? ==>
          parsed == if reading.value.value > 0.0 then Ok(Number(reading.value.value / seconds as real))
                    else Bad(NotPositive))
  }

  lemma SpellsPeriod(unit: string, seconds: int)
    ensures Spells(unit, seconds) ==> unit in UNITS && Period(unit) == seconds as real && seconds > 0
    ensures unit in UNITS ==> Spells(unit, 1) || Spells(unit, 60) || Spells(unit, 3600)
  {
  }

  lemma PeriodMeans(reading: Reading, seconds: int)
    requires seconds > 0
    ensures PerSeconds(reading, seconds, PerPeriod(reading, seconds as real))
  {
  }

  predicate ShortFor(short: string, seconds: int) {
    (short == "rps" && seconds == 1) || (short == "rpm" && seconds == 60) || (short == "rph" && seconds == 3600)
  }

  // ParseLimit case by case, on the text without its spaces and in lower case.

  lemma WordsParse(raw: string, read: string -> Reading, order: seq<string>)
    requires Visits(order)
    ensures Tidy(raw) == "" ==> ParseLimit(raw, read, order) == Bad(Empty)
    ensures Tidy(raw) in {"inf", "infinite", "unlimited"} ==> ParseLimit(raw, read, order) == Ok(INF)
  {
  }

  /** What has no slash, is no word and ends in none of the short forms names no period. */
  lemma NothingElseParses(raw: string, read: string -> Reading, order: seq<string>)
    requires Visits(order) && Tidy(raw) !in {"", "inf", "infinite", "unlimited"} && '/' !in Tidy(raw)
    requires !EndsIn(Tidy(raw), "rps") && !EndsIn(Tidy(raw), "rpm") && !EndsIn(Tidy(raw), "rph")
    ensures ParseLimit(raw, read, order) == Bad(NoPeriod)
  {
    NoSlashNoCut(Tidy(raw));
    CutMisses(Tidy(raw), order);
  }

  /** A slash puts the number before it over the period behind it, in any of its spellings,
      and is refused with anything else behind it. */
  lemma SlashedParses(raw: string, num: string, unit: string, read: string -> Reading, order: seq<string>)
    requires Visits(order) && Tidy(raw) == num + "/" + unit && '/' !in num
    ensures forall seconds :: Spells(unit, seconds) ==>
              seconds > 0 && PerSeconds(read(num), seconds, ParseLimit(raw, read, order))
    ensures (forall seconds :: !Spells(unit, seconds)) ==> ParseLimit(raw, read, order) == Bad(BadPeriod)
  {
    var s := Tidy(raw);
    SlashAt(num, unit);
    assert s[..|num|] == num && s[|num| + 1..] == unit && s[|num|] == '/';
    SlashIsNoWord(s);
    SplitNamesAPeriod(s, order);
    forall seconds | Spells(unit, seconds)
      ensures seconds > 0 && PerSeconds(read(num), seconds, ParseLimit(raw, read, order))
    {
      SpellsPeriod(unit, seconds);
      PeriodMeans(read(num), seconds);
    }
    SpellsPeriod(unit, 1);
  }

  /** The short forms name the same periods. */
  lemma ShorthandParses(raw: string, num: string, short: string, seconds: int,
                        read: string -> Reading, order: seq<string>)
    requires Visits(order) && Tidy(raw) == num + short && '/' !in num && ShortFor(short, seconds)
    ensures PerSeconds(read(num), seconds, ParseLimit(raw, read, order))
  {
    var s := Tidy(raw);
    ShortPeriods();
    ShortIsTidy(short);
    assert EndsIn(s, short);
    forall i | 0 <= i < |order|
      ensures |order[i]| == |short|
    {
      SuffixesAreThreeLong(order[i]);
    }
    CutHits(s, order, short);
    assert s[..|s| - 3] == num;
    NoSlashNoCut(s);
    ShortIsNoWord(s, short);
    SplitNamesAPeriod(s, order);
    PeriodMeans(read(num), seconds);
  }

  /** A number, a slash and a period mean the number over the period's length. */
  lemma SlashedMeans(num: string, unit: string, read: string -> Reading, order: seq<string>)
    requires Visits(order) && unit in UNITS && '/' !in num && Tidy(unit) == unit
    ensures Period(unit) >= 1.0
    ensures ParseLimit(num + "/" + unit, read, order) == PerPeriod(read(Tidy(num)), Period(unit))
  {
    var s := Tidy(num) + "/" + unit;
    TidySlashed(num, unit);
    SplitSlashed(Tidy(num), unit, order);
    SplitNamesAPeriod(s, order);
    assert s[|Tidy(num)|] == '/';
    SlashIsNoWord(s);
  }

  lemma WrittenPeriods()
    ensures "s" in UNITS && "min" in UNITS && "hour" in UNITS
    ensures Period("s") == 1.0 && Period("min") == 60.0 && Period("hour") == 3600.0
    ensures Tidy("s") == "s" && Tidy("min") == "min" && Tidy("hour") == "hour"
  {
    assert Tidy("min") == [Lower('m')] + Tidy("in") && Tidy("in") == [Lower('i')] + Tidy("n");
    assert Tidy("our") == [Lower('o')] + Tidy("ur") && Tidy("ur") == [Lower('u')] + Tidy("r");
  }

  /** What becomes of a printed number with a period behind it. */
  lemma PrintedMeans(f: Float, unit: string, read: string -> Reading, write: Float -> string, order: seq<string>)
    requires Visits(order) && Inverts(read, write, f) && unit in UNITS && Tidy(unit) == unit
    ensures Period(unit) >= 1.0
    ensures ParseLimit(write(f) + "/" + unit, read, order) == PerPeriod(Read(f), Period(unit))
  {
    SlashedMeans(write(f), unit, read, order);
  }

  lemma Rescaled(v: real, k: real)
    requires k >= 1.0 && v > 0.0
    ensures PerPeriod(Read(Number(v * k)), k) == Ok(Number(v))
  {
    assert v * k / k == v;
    assert v * k > 0.0;
  }

  lemma Unscaled(l: Limit, k: real)
    requires k >= 1.0 && !l.NegInf? && (l.Number? ==> l.value > 0.0)
    ensures PerPeriod(Read(TimesBy(l, k)), k) == Ok(l) <==> l.Number?
  {
    if l.Number? {
      Rescaled(l.value, k);
    }
  }

  /** Limit.String and ParseLimit are inverse exactly on the rates above zero. */
  lemma RoundTrip(l: Limit, read: string -> Reading, write: Float -> string, order: seq<string>)
    requires Visits(order) && Inverts(read, write, Printed(l))
    ensures ParseLimit(Text(l, write), read, order) == Ok(l) <==> l.Number? && l.value > 0.0
  {
    if l == INF {
      InfIsRead(read, order);
    } else if l.NegInf? || (l.Number? && l.value <= 0.0) {
      ZeroIsRefused(read, order);
    } else {
      FiniteRoundTrip(l, read, write, order);
    }
  }

  lemma InfIsRead(read: string -> Reading, order: seq<string>)
    requires Visits(order)
    ensures ParseLimit("Inf", read, order) == Ok(INF)
  {
    assert Tidy("Inf") == "inf";
  }

  lemma FiniteRoundTrip(l: Limit, read: string -> Reading, write: Float -> string, order: seq<string>)
    requires Visits(order) && Inverts(read, write, Printed(l))
    requires l != INF && !l.NegInf? && (l.Number? ==> l.value > 0.0)
    ensures ParseLimit(Text(l, write), read, order) == Ok(l) <==> l.Number?
  {
    WrittenPeriods();
    var (k, unit) := Scale(l);
    assert Text(l, write) == write(TimesBy(l, k)) + "/" + unit by {
      TextScales(l, write);
    }
    PrintedMeans(TimesBy(l, k), unit, read, write, order);
    Unscaled(l, k);
  }

  lemma TextScales(l: Limit, write: Float -> string)
    requires l != INF && !l.NegInf? && (l.Number? ==> l.value > 0.0)
    ensures Text(l, write) == write(TimesBy(l, Scale(l).0)) + "/" + Scale(l).1
  {
    assert TimesBy(l, 1.0) == l;
    assert "/s" == "/" + "s" && "/min" == "/" + "min" && "/hour" == "/" + "hour";
  }

  /** A finite rate above zero is printed over a second, a minute or an hour, the shortest of
      them in which it comes to one or more; over an hour if there is none. So the number is
      at least one exactly when the rate is at least one an hour. */
  lemma TextInShortestPeriod(l: Limit, write: Float -> string)
    requires l != INF && l.Number? && l.value > 0.0
    ensures exists n: real, unit, seconds: int ::
              && Spells(unit, seconds) && n == l.value * seconds as real
              && Text(l, write) == write(Number(n)) + "/" + unit
              && (seconds > 1 ==> l.value < 1.0) && (seconds > 60 ==> l.value * 60.0 < 1.0)
              && (n >= 1.0 <==> l.value * 3600.0 >= 1.0)
  {
    TextScales(l, write);
    var seconds := if l.value >= 1.0 then 1 else if l.value * 60.0 >= 1.0 then 60 else 3600;
    var unit := Scale(l).1;
    assert l.value * 1.0 == l.value;
    assert Spells(unit, seconds) && Scale(l).0 == seconds as real;
    assert l.value >= 1.0 ==> l.value * 3600.0 >= 1.0;
  }

  /** "0" names no period. */
  lemma ZeroIsRefused(read: string -> Reading, order: seq<string>)
    requires Visits(order)
    ensures ParseLimit("0", read, order) == Bad(NoPeriod)
  {
    assert Tidy("0") == "0";
    forall u | u in order
      ensures !EndsIn("0", u)
    {
      SuffixesAreThreeLong(u);
    }
    CutMisses("0", order);
    assert Slash("0") == 1;
  }

  /** "6rpm" and "6/min" are one rate, and so with the other two pairs, whatever stands in
      front. */
  lemma ShorthandAgrees(num: string, short: string, unit: string, read: string -> Reading, order: seq<string>)
    requires Visits(order) && '/' !in num
    requires (short, unit) in {("rps", "s"), ("rpm", "min"), ("rph", "hour")}
    ensures ParseLimit(num + short, read, order) == ParseLimit(num + "/" + unit, read, order)
  {
    WrittenPeriods();
    ShortPeriods();
    SlashedMeans(num, unit, read, order);
    ShortMeans(num, short, read, order);
  }

  lemma ShortPeriods()
    ensures Period("rps") == 1.0 && Period("rpm") == 60.0 && Period("rph") == 3600.0
    ensures "rps" in RP_UNITS && "rpm" in RP_UNITS && "rph" in RP_UNITS
  {
  }

  lemma ShortMeans(num: string, short: string, read: string -> Reading, order: seq<string>)
    requires Visits(order) && '/' !in num && short in {"rps", "rpm", "rph"}
    ensures Period(short) >= 1.0
    ensures ParseLimit(num + short, read, order) == PerPeriod(read(Tidy(num)), Period(short))
  {
    ShortPeriods();
    var s := Tidy(num) + short;
    ShortIsTidy(short);
    TidyJoins(num, short);
    TidyKeepsSlashes(num);
    assert Tidy(num + short) == s;
    assert EndsIn(s, short);
    forall i | 0 <= i < |order|
      ensures |order[i]| == |short|
    {
      SuffixesAreThreeLong(order[i]);
    }
    CutHits(s, order, short);
    assert s[..|s| - 3] == Tidy(num);
    NoSlashNoCut(s);
    ShortIsNoWord(s, short);
    SplitNamesAPeriod(s, order);
  }

  lemma ShortIsTidy(short: string)
    requires short in {"rps", "rpm", "rph"}
    ensures Tidy(short) == short && |short| == 3 && '/' !in short
  {
    ThreeLetters('r', 'p', short[2]);
    assert short == ['r', 'p', short[2]];
  }

  lemma ThreeLetters(a: char, b: char, c: char)
    requires 'a' <= a <= 'z' && 'a' <= b <= 'z' && 'a' <= c <= 'z'
    ensures Tidy([a, b, c]) == [a, b, c]
  {
    TidyLetter(a);
    TidyLetter(b);
    TidyLetter(c);
    TidyJoins([a] + [b], [c]);
    TidyJoins([a], [b]);
    assert [a, b, c] == [a] + [b] + [c];
  }

  lemma TidyLetter(c: char)
    requires 'a' <= c <= 'z'
    ensures Tidy([c]) == [c]
  {
    assert [c][1..] == "";
  }

  lemma {:induction false} NoSlashNoCut(s: string)
    requires '/' !in s
    ensures Slash(s) == |s|
  {
    if s != "" {
      assert s[0] in s;
      NoSlashNoCut(s[1..]);
    }
  }

  lemma ShortIsNoWord(s: string, short: string)
    requires short in {"rps", "rpm", "rph"} && EndsIn(s, short)
    ensures s != "" && s != "inf" && s != "infinite" && s != "unlimited"
  {
    assert s[|s| - 2] == 'p';
  }

  /** Whatever ParseLimit accepts is a finite rate above zero. */
  lemma AcceptedIsPositive(raw: string, read: string -> Reading, order: seq<string>)
    requires Visits(order) && ParseLimit(raw, read, order).Ok?
    ensures var l := ParseLimit(raw, read, order).limit; l.Number? && l.value > 0.0
  {
    var s := Tidy(raw);
    SplitNamesAPeriod(s, order);
    var cut := Split(s, order);
    if cut.Halves? && read(cut.num).Read? && read(cut.num).value.Number? {
      QuotientIsPositive(read(cut.num).value.value, Period(cut.unit));
    }
  }

  lemma QuotientIsPositive(n: real, period: real)
    requires period >= 1.0
    ensures n > 0.0 ==> n / period > 0.0
  {
  }

  // -------------------------------------------- a printer and a reader that are inverse

  /** Every finite float64 is one. */
  ghost predicate Rational(v: real) {
    exists p: int, q: int :: Fraction(v, p, q)
  }

  predicate Fraction(v: real, p: int, q: int) {
    q > 0 && v * q as real == p as real
  }

  /** n ones. */
  function Ones(n: nat): (s: string)
    ensures |s| == n && forall i :: 0 <= i < n ==> s[i] == '1'
  {
    if n == 0 then "" else "1" + Ones(n - 1)
  }

  function Colon(s: string): (i: nat)
    ensures i <= |s|
  {
    if s == "" || s[0] == ':' then 0 else 1 + Colon(s[1..])
  }

  /** A fraction by its sign and two rows of ones. */
  function Rows(p: int, q: nat): string {
    (if p < 0 then "-" + Ones(-p) else Ones(p)) + ":" + Ones(q)
  }

  ghost function WriteRows(f: Float): string {
    match f
    case NaN => "nan"
    case PosInf => "+inf"
    case NegInf => "-inf"
    case Number(v) =>
      if Rational(v) then
        var p, q :| Fraction(v, p, q);
        Rows(p, q)
      else ""
  }

  function ReadRows(s: string): Reading {
    if s == "nan" then Read(NaN)
    else if s == "+inf" then Read(PosInf)
    else if s == "-inf" then Read(NegInf)
    else
      var t := if s != "" && s[0] == '-' then s[1..] else s;
      var i: int := Colon(t);
      if i + 1 >= |t| then Malformed
      else Read(Number((if |t| < |s| then -i else i) as real / (|t| - i - 1) as real))
  }

  lemma {:induction false} TidyOnes(n: nat)
    ensures Tidy(Ones(n)) == Ones(n)
  {
    if n > 0 {
      TidyOnes(n - 1);
    }
  }

  lemma {:induction false} ColonAfterOnes(n: nat, rest: string)
    ensures Colon(Ones(n) + ":" + rest) == n
  {
    if n > 0 {
      ColonAfterOnes(n - 1, rest);
      assert (Ones(n) + ":" + rest)[1..] == Ones(n - 1) + ":" + rest;
    }
  }

  lemma TidyRows(p: int, q: nat)
    ensures Tidy(Rows(p, q)) == Rows(p, q) && '/' !in Rows(p, q)
  {
    var n := if p < 0 then -p else p;
    var front := if p < 0 then "-" + Ones(n) else Ones(n);
    TidyOnes(n);
    TidyOnes(q);
    TidyJoins(front + ":", Ones(q));
    TidyJoins(front, ":");
    assert Tidy(":") == ":";
    if p < 0 {
      TidyJoins("-", Ones(n));
      assert Tidy("-") == "-";
    }
    assert Rows(p, q) == front + ":" + Ones(q);
  }

  lemma FractionDivides(v: real, p: int, q: int)
    requires Fraction(v, p, q)
    ensures p as real / q as real == v
  {
    assert v * q as real / q as real == v;
  }

  lemma RowsAreRead(v: real, p: int, q: nat)
    requires Fraction(v, p, q)
    ensures ReadRows(Rows(p, q)) == Read(Number(v))
  {
    var n := if p < 0 then -p else p;
    var t := Ones(n) + ":" + Ones(q);
    ColonAfterOnes(n, Ones(q));
    assert Rows(p, q) == if p < 0 then "-" + t else t;
    assert p < 0 ==> Rows(p, q)[1..] == t;
    FractionDivides(v, p, q);
  }

  /** What RoundTrip asks of a reader and a printer some pair provides, for every rational
      number at once and for what is no number. */
  lemma SomePrinterInverts(f: Float)
    requires f.Number? ==> Rational(f.value)
    ensures Inverts(ReadRows, WriteRows, f)
  {
    match f
    case Number(v) =>
      var p, q :| Fraction(v, p, q) && WriteRows(f) == Rows(p, q);
      TidyRows(p, q);
      RowsAreRead(v, p, q);
    case NaN => SpelledOut("nan");
    case PosInf => SpelledOut("+inf");
    case NegInf => SpelledOut("-inf");
  }

  lemma SpelledOut(s: string)
    requires s in {"nan", "+inf", "-inf"}
    ensures Tidy(s) == s && '/' !in s
  {
    if s == "nan" {
      ThreeLetters('n', 'a', 'n');
      assert s == ['n', 'a', 'n'];
    } else {
      SignedInf(s[0]);
      assert s == [s[0]] + "inf";
    }
  }

  lemma SignedInf(sign: char)
    requires sign == '+' || sign == '-'
    ensures Tidy([sign] + "inf") == [sign] + "inf" && '/' !in [sign] + "inf"
  {
    ThreeLetters('i', 'n', 'f');
    assert "inf" == ['i', 'n', 'f'];
    TidyJoins([sign], "inf");
    assert [sign][1..] == "";
  }

  lemma ScaledFraction(v: real, p: int, q: int, k: int)
    requires Fraction(v, p, q)
    ensures Fraction(v * k as real, p * k, q)
  {
    assert v * k as real * q as real == v * q as real * k as real;
    assert p as real * k as real == (p * k) as real;
  }

  /** The number a rational rate is printed as is rational. */
  lemma PrintedIsRational(l: Limit)
    requires l.Number? && Rational(l.value)
    ensures Rational(Printed(l).value)
  {
    var p, q :| Fraction(l.value, p, q);
    var k := if AtLeastOne(l) then 1 else if AtLeastOne(TimesBy(l, 60.0)) then 60 else 3600;
    assert Scale(l).0 == k as real && Printed(l).value == l.value * k as real;
    ScaledFraction(l.value, p, q, k);
    assert Fraction(Printed(l).value, p * k, q);
  }

  ghost predicate Survives(l: Limit, read: string -> Reading, write: Float -> string, order: seq<string>)
    requires Visits(order)
  {
    ParseLimit(Text(l, write), read, order) == Ok(l)
  }

  /** So with that pair every rational rate above zero, and no other rational, survives the
      round trip. */
  lemma RationalsRoundTrip(order: seq<string>) returns (read: string -> Reading, write: Float -> string)
    requires Visits(order)
    ensures forall l: Limit :: l.Number? && Rational(l.value) ==> (Survives(l, read, write, order) <==> l.value > 0.0)
  {
    read, write := ReadRows, WriteRows;
    forall l: Limit | l.Number? && Rational(l.value)
      ensures Survives(l, read, write, order) <==> l.value > 0.0
    {
      PrintedIsRational(l);
      SomePrinterInverts(Printed(l));
      RoundTrip(l, read, write, order);
    }
  }
}
