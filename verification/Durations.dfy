/** ISO 8601 durations:  the printer, the parser, and that one undoes the other.  A duration is a count of nanoseconds in 64 bits;  a number
    in a text is the exact rational it spells. */
module Durations {
  import opened Options

  const MAX := 0x7FFF_FFFF_FFFF_FFFF
  const MIN := -0x8000_0000_0000_0000
  const NANOS := 1_000_000_000

  predicate Fits(d: int) {
    MIN <= d <= MAX
  }

  datatype Error = NoP | SecondT | BareT | NoDesignator | NoNumber | NoUnit | OutOfOrder | TooLong | SumTooLong | NoComponent
  datatype Result = Ok(value: int) | Err(error: Error)

  // ---- Units ----

  /** A designator, whether it is of the time part, and its seconds. */
  datatype Unit = Unit(designator: char, time: bool, seconds: nat)

  function UnitAt(i: nat): Unit
    requires i < 7
  {
    match i
    case 0 => Unit('Y', false, 31556952)
    case 1 => Unit('M', false, 2629746)
    case 2 => Unit('W', false, 604800)
    case 3 => Unit('D', false, 86400)
    case 4 => Unit('H', true, 3600)
    case 5 => Unit('M', true, 60)
    case _ => Unit('S', true, 1)
  }

  /** The unit a designator names in the date part or the time part. */
  function FindUnit(c: char, time: bool): (r: Option<nat>)
    ensures r.Some? ==> r.value < 7 && UnitAt(r.value).designator == c && UnitAt(r.value).time == time
    ensures forall i: nat :: i < 7 && UnitAt(i).designator == c && UnitAt(i).time == time ==> r == Some(i)
  {
    if !time then
      if c == 'Y' then Some(0) else if c == 'M' then Some(1) else if c == 'W' then Some(2) else if c == 'D' then Some(3) else None
    else
      if c == 'H' then Some(4) else if c == 'M' then Some(5) else if c == 'S' then Some(6) else None
  }

  // ---- Numbers ----

  predicate IsDigit(c: char) {
    '0' <= c <= '9'
  }

  function Pow10(k: nat): (r: nat)
    ensures r >= 1
  {
    if k == 0 then 1 else 10 * Pow10(k - 1)
  }

  /** `n` over ten to the `k`. */
  datatype Number = Number(n: int, k: nat)

  function Scan(s: string, n: nat, k: nat, dot: bool, any: bool): Option<Number> {
    if s == [] then if any then Some(Number(n, k)) else None
    else if s[0] == '.' then if dot then None else Scan(s[1..], n, k, true, any)
    else if IsDigit(s[0]) then Scan(s[1..], 10 * n + (s[0] as int - '0' as int), if dot then k + 1 else k, dot, true)
    else None
  }

  predicate IsSign(c: char) {
    c == '+' || c == '-'
  }

  function Negated(v: Option<Number>): Option<Number> {
    if v.Some? then Some(Number(-v.value.n, v.value.k)) else None
  }

  /** A sign or none, then digits with at most one point among them. */
  function Atod(s: string): Option<Number> {
    if s != [] && s[0] == '-' then Negated(Scan(s[1..], 0, 0, false, false))
    else if s != [] && s[0] == '+' then Scan(s[1..], 0, 0, false, false)
    else Scan(s, 0, 0, false, false)
  }

  /** How far digits and points run. */
  function Run(s: string): (n: nat)
    ensures n <= |s|
  {
    if s == [] || !(IsDigit(s[0]) || s[0] == '.') then 0 else 1 + Run(s[1..])
  }

  function NumberLength(s: string): (n: nat)
    ensures n <= |s|
  {
    if s != [] && IsSign(s[0]) then 1 + Run(s[1..]) else Run(s)
  }

  /** Nearest, a tie to the even side. */
  function Rounded(n: int, d: nat): int
    requires d > 0
  {
    var q, r := n / d, n % d;
    if 2 * r < d || (2 * r == d && q % 2 == 0) then q else q + 1
  }

  function Abs(x: int): nat {
    if x < 0 then -x else x
  }

  /** A component's nanoseconds, or none past a duration's range. */
  function PartOf(v: Number, unit: nat): Option<int>
    requires unit < 7
  {
    var n := v.n * UnitAt(unit).seconds * NANOS;
    if Abs(n) >= MAX * Pow10(v.k) then None else Some(Rounded(n, Pow10(v.k)))
  }

  predicate SumFits(y: int, part: int) {
    !(part > 0 && y > MAX - part) && !(part < 0 && y < MIN - part)
  }

  // ---- The parser ----

  datatype State = State(time: bool, next: nat, any: bool, y: int)

  datatype Step = More(rest: string, state: State) | Stop(error: Error)

  /** One component, number and designator. */
  function Component(s: string, st: State): (r: Step)
    requires s != []
    ensures r.More? ==> |r.rest| < |s|
  {
    var n := NumberLength(s);
    if n == |s| then Stop(NoDesignator) else
      var v := Atod(s[..n]);
      if v.None? then Stop(NoNumber) else
        var unit := FindUnit(s[n], st.time);
        if unit.None? then Stop(NoUnit)
        else if unit.value < st.next then Stop(OutOfOrder)
        else
          var part := PartOf(v.value, unit.value);
          if part.None? then Stop(TooLong)
          else if !SumFits(st.y, part.value) then Stop(SumTooLong)
          else More(s[n + 1..], State(st.time, unit.value + 1, true, st.y + part.value))
  }

  function ParseFrom(s: string, st: State): Result
    decreases |s|
  {
    if s == [] then if st.any then Ok(st.y) else Err(NoComponent)
    else if s[0] == 'T' then
      if st.time then Err(SecondT)
      else if |s| == 1 then Err(BareT)
      else ParseFrom(s[1..], st.(time := true))
    else
      var step := Component(s, st);
      if step.Stop? then Err(step.error) else ParseFrom(step.rest, step.state)
  }

  function Parse(iso: string): Result {
    if iso == [] || iso[0] != 'P' then Err(NoP) else ParseFrom(iso[1..], State(false, 0, false, 0))
  }

  lemma {:induction false} RunIs(s: string, from: nat, i: nat)
    requires from <= i <= |s| && (forall j :: from <= j < i ==> IsDigit(s[j]) || s[j] == '.')
    requires i == |s| || !(IsDigit(s[i]) || s[i] == '.')
    ensures Run(s[from..]) == i - from
    decreases i - from
  {
    if from < i {
      RunIs(s, from + 1, i);
      assert s[from..][1..] == s[from + 1..];
    }
  }

  /** Where the number at `i` ends. */
  method NumberEnd(iso: string, start: nat) returns (i: nat)
    requires start < |iso|
    ensures start <= i <= |iso| && i - start == NumberLength(iso[start..])
  {
    i := start;
    if iso[i] == '+' || iso[i] == '-' {
      i := i + 1;
    }
    ghost var from := i;
    while i < |iso| && (IsDigit(iso[i]) || iso[i] == '.')
      invariant from <= i <= |iso| && forall j :: from <= j < i ==> IsDigit(iso[j]) || iso[j] == '.'
    {
      i := i + 1;
    }
    RunIs(iso, from, i);
    assert iso[start..][1..] == iso[start + 1..];
  }

  /** The component at `start`, and where it ends. */
  method OneComponent(iso: string, start: nat, st: State) returns (step: Step, end: nat)
    requires start < |iso|
    ensures step == Component(iso[start..], st)
    ensures step.More? ==> start < end <= |iso| && step.rest == iso[end..]
  {
    ghost var here := iso[start..];
    var i := NumberEnd(iso, start);
    end := i + 1;
    assert here[..i - start] == iso[start..i];
    if i == |iso| {
      return Stop(NoDesignator), end;
    }
    assert here[i - start] == iso[i] && here[i - start + 1..] == iso[i + 1..];
    var value := Atod(iso[start..i]);
    if value.None? {
      return Stop(NoNumber), end;
    }
    var unit := FindUnit(iso[i], st.time);
    if unit.None? {
      return Stop(NoUnit), end;
    }
    if unit.value < st.next {
      return Stop(OutOfOrder), end;
    }
    var part := PartOf(value.value, unit.value);
    if part.None? {
      return Stop(TooLong), end;
    }
    if !SumFits(st.y, part.value) {
      return Stop(SumTooLong), end;
    }
    step := More(iso[end..], State(st.time, unit.value + 1, true, st.y + part.value));
  }

  method TryToDuration(iso: string) returns (r: Result)
    ensures r == Parse(iso)
  {
    if iso == [] || iso[0] != 'P' {
      return Err(NoP);
    }
    var st := State(false, 0, false, 0);
    var i := 1;
    while i < |iso|
      invariant 1 <= i <= |iso|
      invariant Parse(iso) == ParseFrom(iso[i..], st)
    {
      assert iso[i..][1..] == iso[i + 1..];
      if iso[i] == 'T' {
        if st.time {
          return Err(SecondT);
        }
        if i + 1 == |iso| {
          return Err(BareT);
        }
        st := st.(time := true);
        i := i + 1;
      } else {
        var step, end := OneComponent(iso, i, st);
        if step.Stop? {
          return Err(step.error);
        }
        st, i := step.state, end;
      }
    }
    r := if st.any then Ok(st.y) else Err(NoComponent);
  }

  // ---- What the parser accepts ----

  /** A component as it is written:  its number and its unit. */
  datatype Written = Written(number: string, unit: nat)

  predicate ProperNumber(s: string) {
    NumberLength(s) == |s| && Atod(s).Some?
  }

  /** Units in order, each at most once, every number a proper one. */
  predicate Ordered(cs: seq<Written>, next: nat) {
    cs == [] || (next <= cs[0].unit < 7 && ProperNumber(cs[0].number) && Ordered(cs[1..], cs[0].unit + 1))
  }

  function Mark(unit: nat, time: bool): string {
    if unit >= 4 && !time then "T" else ""
  }

  function Piece(w: Written, rest: string): string
    requires w.unit < 7
  {
    w.number + [UnitAt(w.unit).designator] + rest
  }

  /** The text of some components, a T before the first of the time part. */
  function Render(cs: seq<Written>, time: bool): string
    requires Ordered(cs, 0)
  {
    if cs == [] then "" else
      OrderedLower(cs[1..], cs[0].unit + 1);
      Mark(cs[0].unit, time) + Piece(cs[0], Render(cs[1..], time || cs[0].unit >= 4))
  }

  lemma OrderedLower(cs: seq<Written>, next: nat)
    requires Ordered(cs, next)
    ensures Ordered(cs, 0)
  {
  }

  /** A component added to the sum so far, where it and the sum are in range. */
  function Add(w: Written, y: int): Option<int>
    requires w.unit < 7 && ProperNumber(w.number)
  {
    var part := PartOf(Atod(w.number).value, w.unit);
    if part.None? || !SumFits(y, part.value) then None else Some(y + part.value)
  }

  /** What the components come to after `y`, or none where a component or the sum is past the range. */
  function Total(cs: seq<Written>, y: int): Option<int>
    requires Ordered(cs, 0)
    decreases |cs|
  {
    if cs == [] then Some(y) else
      OrderedLower(cs[1..], cs[0].unit + 1);
      var sum := Add(cs[0], y);
      if sum.None? then None else Total(cs[1..], sum.value)
  }

  lemma {:induction false} RunThen(s: string, c: char, rest: string)
    requires Run(s) == |s| && !IsDigit(c) && c != '.'
    ensures Run(s + [c] + rest) == |s|
  {
    if s == [] {
      assert s + [c] + rest == [c] + rest;
    } else {
      assert (s + [c] + rest)[1..] == s[1..] + [c] + rest;
      RunThen(s[1..], c, rest);
    }
  }

  lemma NumberThen(s: string, c: char, rest: string)
    requires ProperNumber(s) && !IsDigit(c) && c != '.' && !IsSign(c)
    ensures NumberLength(s + [c] + rest) == |s| && s != [] && (IsSign(s[0]) || IsDigit(s[0]) || s[0] == '.')
  {
    if s != [] && IsSign(s[0]) {
      assert (s + [c] + rest)[1..] == s[1..] + [c] + rest;
      RunThen(s[1..], c, rest);
    } else {
      RunThen(s, c, rest);
    }
  }

  /** The state after one component, where it is in range. */
  function Taken(w: Written, st: State): Option<State>
    requires w.unit < 7 && ProperNumber(w.number)
  {
    var sum := Add(w, st.y);
    if sum.None? then None else Some(State(st.time || w.unit >= 4, w.unit + 1, true, sum.value))
  }

  predicate RangeError(e: Error) {
    e.TooLong? || e.SumTooLong?
  }

  /** One written component read. */
  lemma ComponentReads(w: Written, rest: string, st: State)
    requires w.unit < 7 && ProperNumber(w.number) && UnitAt(w.unit).time == st.time && st.next <= w.unit
    ensures var s := Piece(w, rest);
            && s != [] && s[0] != 'T'
            && (Taken(w, st).Some? ==> Component(s, st) == More(rest, Taken(w, st).value))
            && (Taken(w, st).None? ==> Component(s, st).Stop? && RangeError(Component(s, st).error))
  {
    var c := UnitAt(w.unit).designator;
    var s := w.number + [c] + rest;
    NumberThen(w.number, c, rest);
    assert s[..|w.number|] == w.number && s[|w.number|] == c && s[|w.number| + 1..] == rest;
  }

  lemma ParseStep(s: string, st: State)
    requires s != [] && s[0] != 'T'
    ensures ParseFrom(s, st) == if Component(s, st).Stop? then Err(Component(s, st).error)
        else ParseFrom(Component(s, st).rest, Component(s, st).state)
  {
  }

  lemma PieceReads(w: Written, rest: string, st: State)
    requires w.unit < 7 && ProperNumber(w.number) && UnitAt(w.unit).time == st.time && st.next <= w.unit
    ensures var r := ParseFrom(Piece(w, rest), st);
            if Taken(w, st).None? then r.Err? && RangeError(r.error) else r == ParseFrom(rest, Taken(w, st).value)
  {
    ComponentReads(w, rest, st);
    ParseStep(Piece(w, rest), st);
  }

  lemma TimeUnit(unit: nat)
    requires unit < 7
    ensures UnitAt(unit).time <==> unit >= 4
  {
  }

  lemma HeadReads(w: Written, tail: string, st: State)
    requires st.next <= w.unit < 7 && ProperNumber(w.number) && (st.time ==> w.unit >= 4)
    ensures var now := Taken(w, st);
            var r := ParseFrom(Mark(w.unit, st.time) + Piece(w, tail), st);
            if now.None? then r.Err? && RangeError(r.error) else r == ParseFrom(tail, now.value)
  {
    var now := st.(time := st.time || w.unit >= 4);
    TimeUnit(w.unit);
    assert Taken(w, now) == Taken(w, st);
    PieceReads(w, tail, now);
    MarkReads(w.unit, Piece(w, tail), st);
  }

  lemma TotalCons(w: Written, rest: seq<Written>, y: int)
    requires Ordered([w] + rest, 0) && Ordered(rest, 0)
    ensures Total([w] + rest, y) == if Add(w, y).None? then None else Total(rest, Add(w, y).value)
  {
    assert ([w] + rest)[1..] == rest;
  }

  /** Whatever is written in order reads back as its total. */
  lemma {:induction false} RenderReads(cs: seq<Written>, st: State)
    requires Ordered(cs, st.next) && Ordered(cs, 0) && (st.time && cs != [] ==> cs[0].unit >= 4)
    ensures var r := ParseFrom(Render(cs, st.time), st);
            if cs == [] && !st.any then r == Err(NoComponent)
            else if Total(cs, st.y).Some? then r == Ok(Total(cs, st.y).value)
            else r.Err? && RangeError(r.error)
    decreases |cs|
  {
    if cs != [] {
      OrderedLower(cs[1..], cs[0].unit + 1);
      HeadReads(cs[0], Render(cs[1..], st.time || cs[0].unit >= 4), st);
      var now := Taken(cs[0], st);
      if now.Some? {
        RenderReads(cs[1..], now.value);
      }
    }
  }

  lemma MarkReads(unit: nat, body: string, st: State)
    requires unit < 7 && body != []
    ensures ParseFrom(Mark(unit, st.time) + body, st) == ParseFrom(body, st.(time := st.time || unit >= 4))
  {
    var s := Mark(unit, st.time) + body;
    if unit >= 4 && !st.time {
      assert s[0] == 'T' && s[1..] == body;
    } else {
      assert s == body;
    }
  }

  /** A component read is one written. */
  lemma ComponentWritten(s: string, st: State) returns (w: Written)
    requires s != [] && Component(s, st).More?
    ensures st.next <= w.unit < 7 && ProperNumber(w.number) && UnitAt(w.unit).time == st.time
    ensures s == Piece(w, Component(s, st).rest)
    ensures Taken(w, st) == Some(Component(s, st).state)
  {
    var n := NumberLength(s);
    w := Written(s[..n], FindUnit(s[n], st.time).value);
    NumberPrefix(s);
    assert s == s[..n] + [s[n]] + s[n + 1..];
  }

  /** And nothing else is accepted. */
  lemma {:induction false} AcceptedRendered(s: string, st: State) returns (cs: seq<Written>)
    requires ParseFrom(s, st).Ok?
    ensures Ordered(cs, st.next) && Ordered(cs, 0) && (st.time && cs != [] ==> cs[0].unit >= 4)
    ensures s == Render(cs, st.time) && (cs == [] ==> st.any) && Total(cs, st.y) == Some(ParseFrom(s, st).value)
    decreases |s|
  {
    if s == [] {
      cs := [];
    } else if s[0] == 'T' {
      cs := AcceptedRendered(s[1..], st.(time := true));
      RenderMarked(s, cs);
    } else {
      ParseStep(s, st);
      var w := ComponentWritten(s, st);
      TimeUnit(w.unit);
      var step := Component(s, st);
      var rest := AcceptedRendered(step.rest, step.state);
      cs := [w] + rest;
      Prepended(s, st, w, rest);
    }
  }

  lemma Prepended(s: string, st: State, w: Written, rest: seq<Written>)
    requires st.next <= w.unit < 7 && ProperNumber(w.number) && (w.unit >= 4 <==> st.time) && Add(w, st.y).Some?
    requires Ordered(rest, w.unit + 1) && Ordered(rest, 0) && s == Piece(w, Render(rest, st.time))
    ensures Ordered([w] + rest, st.next) && Ordered([w] + rest, 0)
    ensures s == Render([w] + rest, st.time) && Total([w] + rest, st.y) == Total(rest, Add(w, st.y).value)
  {
    var cs := [w] + rest;
    assert cs[1..] == rest && cs[0] == w;
    RenderPlain(s, cs, st.time);
    TotalCons(w, rest, st.y);
  }

  lemma RenderPlain(s: string, cs: seq<Written>, time: bool)
    requires cs != [] && Ordered(cs, 0) && Ordered(cs[1..], 0) && (cs[0].unit >= 4 <==> time) && s == Piece(cs[0], Render(cs[1..], time))
    ensures s == Render(cs, time)
  {
    assert Render(cs, time) == "" + s;
  }

  lemma RenderMarked(s: string, cs: seq<Written>)
    requires |s| > 1 && s[0] == 'T' && Ordered(cs, 0) && s[1..] == Render(cs, true) && (cs != [] ==> cs[0].unit >= 4)
    ensures cs != [] && s == Render(cs, false)
  {
    assert s == "T" + s[1..];
    OrderedLower(cs[1..], cs[0].unit + 1);
    var body := Piece(cs[0], Render(cs[1..], true));
    assert Render(cs, true) == "" + body == body;
    assert Render(cs, false) == "T" + body;
  }

  lemma {:induction false} RunPrefix(s: string)
    ensures Run(s[..Run(s)]) == Run(s)
  {
    if s != [] && (IsDigit(s[0]) || s[0] == '.') {
      RunPrefix(s[1..]);
      assert s[..Run(s)][1..] == s[1..][..Run(s[1..])];
    }
  }

  lemma NumberPrefix(s: string)
    ensures NumberLength(s[..NumberLength(s)]) == NumberLength(s)
  {
    if s != [] && IsSign(s[0]) {
      RunPrefix(s[1..]);
      assert s[..NumberLength(s)][1..] == s[1..][..Run(s[1..])];
    } else {
      RunPrefix(s);
    }
  }

  ghost predicate Spells(iso: string, v: int) {
    exists cs :: cs != [] && Ordered(cs, 0) && iso == "P" + Render(cs, false) && Total(cs, 0) == Some(v)
  }

  /** The parser's value, and that it has one, is exactly the grammar's:  P, then components in order, each at most
      once, a T before the first of the time part. */
  lemma ParseExact(iso: string, v: int)
    ensures Parse(iso) == Ok(v) <==> Spells(iso, v)
  {
    if Parse(iso) == Ok(v) {
      var cs := AcceptedRendered(iso[1..], State(false, 0, false, 0));
      assert iso == "P" + iso[1..];
    }
    if Spells(iso, v) {
      var cs :| cs != [] && Ordered(cs, 0) && iso == "P" + Render(cs, false) && Total(cs, 0) == Some(v);
      assert iso[1..] == Render(cs, false);
      RenderReads(cs, State(false, 0, false, 0));
    }
  }

  // ---- The printer ----

  /** Division and remainder toward zero. */
  function Quot(a: int, b: nat): int
    requires b > 0
  {
    if a >= 0 then a / b else -(-a / b)
  }

  function Rem(a: int, b: nat): int
    requires b > 0
  {
    if a >= 0 then a % b else -(-a % b)
  }

  const MILLI := 1_000_000

  function Digit(n: nat): char
    requires n < 10
  {
    (n + '0' as int) as char
  }

  function Digits(n: nat): string {
    if n < 10 then [Digit(n)] else Digits(n / 10) + [Digit(n % 10)]
  }

  function Signed(n: int): string {
    if n < 0 then "-" + Digits(-n) else Digits(n)
  }

  /** Thousandths as a decimal fraction, without trailing zeros. */
  function Fraction(f: nat): string
    requires 0 < f < 1000
  {
    (if f < 100 then "0" else "") + (if f < 10 then "0" else "") + Digits(Trimmed(f))
  }

  function Trimmed(f: nat): nat
    requires f > 0
  {
    if f % 10 == 0 then Trimmed(f / 10) else f
  }

  function SecondsText(ms: nat): string {
    Digits(ms / 1000) + if ms % 1000 == 0 then "" else "." + Fraction(ms % 1000)
  }

  function SignedSeconds(ms: int): string {
    if ms < 0 then "-" + SecondsText(-ms) else SecondsText(ms)
  }

  function Nanos(unit: nat): nat
    requires unit < 7
  {
    UnitAt(unit).seconds * NANOS
  }

  /** No weeks. */
  function NextUnit(unit: nat): nat {
    if unit == 1 then 3 else unit + 1
  }

  /** So many of a unit, or so many milliseconds written as seconds. */
  datatype Amount = Amount(count: int, unit: nat)

  /** The amounts of a duration from a unit down:  each a whole number of its unit, toward zero, and the rest the next one's. */
  function Amounts(d: int, unit: nat): seq<Amount>
    requires unit < 7
    decreases 7 - unit
  {
    if unit == 6 then if d != 0 then [Amount(Quot(d, MILLI), 6)] else []
    else (if Abs(d) >= Nanos(unit) then [Amount(Quot(d, Nanos(unit)), unit)] else []) + Amounts(Rem(d, Nanos(unit)), NextUnit(unit))
  }

  function WrittenOf(a: Amount): Written {
    Written(if a.unit == 6 then SignedSeconds(a.count) else Signed(a.count), a.unit)
  }

  function AllWritten(amounts: seq<Amount>): seq<Written> {
    if amounts == [] then [] else [WrittenOf(amounts[0])] + AllWritten(amounts[1..])
  }

  function AllAmounts(d: int): seq<Amount> {
    if d == 0 then [Amount(0, 6)] else Amounts(d, 0)
  }

  // ---- Numbers written and read ----

  lemma {:induction false} DigitsScan(n: nat, rest: string, any: bool)
    ensures Scan(Digits(n) + rest, 0, 0, false, any) == Scan(rest, n, 0, false, true)
    decreases n
  {
    if n < 10 {
      assert ([Digit(n)] + rest)[1..] == rest;
    } else {
      var tail := [Digit(n % 10)] + rest;
      assert Digits(n) + rest == Digits(n / 10) + tail;
      DigitsScan(n / 10, tail, any);
      assert tail[1..] == rest;
    }
  }

  lemma {:induction false} DigitsRun(n: nat, rest: string)
    ensures Run(Digits(n) + rest) == |Digits(n)| + Run(rest) && Digits(n) != [] && IsDigit(Digits(n)[0])
    decreases n
  {
    if n < 10 {
      assert ([Digit(n)] + rest)[1..] == rest;
    } else {
      var tail := [Digit(n % 10)] + rest;
      assert Digits(n) + rest == Digits(n / 10) + tail;
      DigitsRun(n / 10, tail);
      assert tail[1..] == rest;
    }
  }

  lemma SignedReads(n: int)
    ensures ProperNumber(Signed(n)) && Atod(Signed(n)) == Some(Number(n, 0))
  {
    var a := Abs(n);
    DigitsScan(a, "", false);
    DigitsRun(a, "");
    assert Digits(a) + "" == Digits(a);
    if n < 0 {
      assert Signed(n)[1..] == Digits(a);
    }
  }

  /** A fraction's digits:  none past the third, the last not a zero. */
  lemma FractionDigits(f: nat)
    requires 0 < f < 1000
    ensures f % 100 == 0 ==> Fraction(f) == [Digit(f / 100)]
    ensures f % 10 == 0 && f % 100 != 0 ==> Fraction(f) == [Digit(f / 100), Digit(f / 10 % 10)]
    ensures f % 10 != 0 ==> Fraction(f) == [Digit(f / 100), Digit(f / 10 % 10), Digit(f % 10)]
  {
    if f % 100 == 0 {
      assert f / 10 % 10 == 0 && f / 10 / 10 == f / 100 && f / 100 < 10 && f / 100 > 0;
      assert Trimmed(f) == Trimmed(f / 10) == Trimmed(f / 100) == f / 100;
    } else if f % 10 == 0 {
      assert Trimmed(f) == f / 10;
    }
    DigitsOf(Trimmed(f));
  }

  lemma DigitsOf(n: nat)
    requires n < 1000
    ensures n < 10 ==> Digits(n) == [Digit(n)]
    ensures 10 <= n < 100 ==> Digits(n) == [Digit(n / 10), Digit(n % 10)]
    ensures 100 <= n ==> Digits(n) == [Digit(n / 100), Digit(n / 10 % 10), Digit(n % 10)]
  {
  }

  /** Some number that is `ms` thousandths. */
  predicate Thousandths(v: Option<Number>, ms: int) {
    v.Some? && v.value.k <= 3 && v.value.n * Pow10(3 - v.value.k) == ms
  }

  lemma ScanDigit(n: nat, k: nat, a: nat, rest: string)
    requires a < 10
    ensures Scan([Digit(a)] + rest, n, k, true, true) == Scan(rest, 10 * n + a, k + 1, true, true)
  {
    assert ([Digit(a)] + rest)[1..] == rest;
  }

  lemma ScanTwo(n: nat, a: nat, b: nat)
    requires a < 10 && b < 10
    ensures Scan([Digit(a), Digit(b)], n, 0, true, true) == Some(Number(100 * n + 10 * a + b, 2))
  {
    assert [Digit(a), Digit(b)] == [Digit(a)] + ([Digit(b)] + []);
    ScanDigit(n, 0, a, [Digit(b)] + []);
    ScanDigit(10 * n + a, 1, b, []);
  }

  lemma ScanThree(n: nat, a: nat, b: nat, c: nat)
    requires a < 10 && b < 10 && c < 10
    ensures Scan([Digit(a), Digit(b), Digit(c)], n, 0, true, true) == Some(Number(1000 * n + 100 * a + 10 * b + c, 3))
  {
    assert [Digit(a), Digit(b), Digit(c)] == [Digit(a)] + ([Digit(b)] + ([Digit(c)] + []));
    ScanDigit(n, 0, a, [Digit(b)] + ([Digit(c)] + []));
    ScanDigit(10 * n + a, 1, b, [Digit(c)] + []);
    ScanDigit(100 * n + 10 * a + b, 2, c, []);
  }

  /** A fraction read after a whole number. */
  lemma FractionScan(whole: nat, f: nat)
    requires 0 < f < 1000
    ensures Thousandths(Scan("." + Fraction(f), whole, 0, false, true), whole * 1000 + f)
  {
    FractionDigits(f);
    assert ("." + Fraction(f))[1..] == Fraction(f);
    FractionSplit(f);
    FractionCases(whole, f / 100, f / 10 % 10, f % 10);
  }

  lemma ThousandthsOf(n: int, k: nat, ms: int)
    requires (k == 1 && n * 100 == ms) || (k == 2 && n * 10 == ms) || (k == 3 && n == ms)
    ensures Thousandths(Some(Number(n, k)), ms)
  {
    assert Pow10(0) == 1 && Pow10(1) == 10 && Pow10(2) == 100;
  }

  lemma FractionCases(whole: nat, a: nat, b: nat, c: nat)
    requires a < 10 && b < 10 && c < 10
    ensures b == 0 && c == 0 ==> Thousandths(Scan([Digit(a)], whole, 0, true, true), whole * 1000 + 100 * a)
    ensures c == 0 ==> Thousandths(Scan([Digit(a), Digit(b)], whole, 0, true, true), whole * 1000 + 100 * a + 10 * b)
    ensures Thousandths(Scan([Digit(a), Digit(b), Digit(c)], whole, 0, true, true), whole * 1000 + 100 * a + 10 * b + c)
  {
    ScanDigit(whole, 0, a, []);
    assert [Digit(a)] + [] == [Digit(a)];
    ThousandthsOf(10 * whole + a, 1, whole * 1000 + 100 * a);
    ScanTwo(whole, a, b);
    ThousandthsOf(100 * whole + 10 * a + b, 2, whole * 1000 + 100 * a + 10 * b);
    ScanThree(whole, a, b, c);
    ThousandthsOf(1000 * whole + 100 * a + 10 * b + c, 3, whole * 1000 + 100 * a + 10 * b + c);
  }

  lemma FractionSplit(f: nat)
    requires f < 1000
    ensures f == 100 * (f / 100) + 10 * (f / 10 % 10) + f % 10 && f / 100 < 10
    ensures f % 100 == 0 <==> f / 10 % 10 == 0 && f % 10 == 0
  {
  }

  lemma SecondsScan(ms: nat)
    ensures Thousandths(Scan(SecondsText(ms), 0, 0, false, false), ms)
  {
    var whole, f := ms / 1000, ms % 1000;
    assert ms == whole * 1000 + f;
    if f == 0 {
      DigitsScan(whole, "", false);
      assert Pow10(3) == 1000;
      assert SecondsText(ms) == Digits(whole) + "";
    } else {
      DigitsScan(whole, "." + Fraction(f), false);
      FractionScan(whole, f);
    }
  }

  lemma SecondsRun(ms: nat)
    ensures Run(SecondsText(ms)) == |SecondsText(ms)| && SecondsText(ms) != [] && IsDigit(SecondsText(ms)[0])
  {
    var f := ms % 1000;
    if f == 0 {
      DigitsRun(ms / 1000, "");
      assert SecondsText(ms) == Digits(ms / 1000) + "";
    } else {
      DigitsRun(ms / 1000, "." + Fraction(f));
      assert ("." + Fraction(f))[1..] == Fraction(f);
      FractionRun(f);
    }
  }

  lemma FractionRun(f: nat)
    requires 0 < f < 1000
    ensures Run(Fraction(f)) == |Fraction(f)|
  {
    DigitsRun(Trimmed(f), "");
    var t := Digits(Trimmed(f));
    assert t + "" == t;
    assert ("0" + t)[1..] == t && ("0" + ("0" + t))[1..] == "0" + t;
    assert Fraction(f) == if f < 10 then "0" + ("0" + t) else if f < 100 then "0" + t else t;
  }

  lemma SignedSecondsReads(ms: int)
    ensures ProperNumber(SignedSeconds(ms)) && Thousandths(Atod(SignedSeconds(ms)), ms)
  {
    SecondsScan(Abs(ms));
    SecondsRun(Abs(ms));
    if ms < 0 {
      assert SignedSeconds(ms)[1..] == SecondsText(-ms);
      var v := Scan(SecondsText(-ms), 0, 0, false, false).value;
      assert -v.n * Pow10(3 - v.k) == -(v.n * Pow10(3 - v.k));
    }
  }

  // ---- Round trip ----

  /** A duration without what is finer than a millisecond. */
  function Milliseconds(d: int): int {
    d - Rem(d, MILLI)
  }

  lemma DivUnique(x: int, m: nat, q: int, r: nat)
    requires m > 0 && x == q * m + r && r < m
    ensures x / m == q && x % m == r
  {
    var q', r' := x / m, x % m;
    assert x == q' * m + r';
    if q' < q {
      MulLe(q' + 1, q, m);
    } else if q' > q {
      MulLe(q + 1, q', m);
    }
  }

  lemma MulLe(a: int, b: int, m: nat)
    requires a <= b
    ensures a * m <= b * m
  {
  }

  /** A unit is whole milliseconds, so what is finer is in the remainder. */
  lemma RemFiner(x: nat, c: nat)
    requires c > 0
    ensures x % (c * MILLI) % MILLI == x % MILLI
  {
    var u := c * MILLI;
    var q, r := x / u, x % u;
    assert x == q * u + r;
    var s, t := r / MILLI, r % MILLI;
    assert q * u == q * c * MILLI;
    DivUnique(x, MILLI, q * c + s, t);
  }

  lemma UnitMillis(unit: nat)
    requires unit < 7
    ensures Nanos(unit) == UnitAt(unit).seconds * 1000 * MILLI && UnitAt(unit).seconds > 0
  {
  }

  /** A duration is a whole number of the unit and a remainder of the same sign, the milliseconds cut from the remainder alone. */
  predicate Splits(d: int, u: nat, q: int, r: int) {
    && d == q * u + r && Milliseconds(d) == q * u + Milliseconds(r)
    && (d >= 0 ==> q >= 0 && r >= 0) && (d <= 0 ==> q <= 0 && r <= 0) && (Abs(d) < u ==> q == 0 && r == d)
  }

  lemma UnitSplitUp(d: nat, c: nat)
    requires c > 0
    ensures Splits(d, c * MILLI, d / (c * MILLI), d % (c * MILLI))
  {
    var u := c * MILLI;
    RemFiner(d, c);
    assert d == d / u * u + d % u;
    if d < u {
      DivUnique(d, u, 0, d);
    }
  }

  lemma SplitsNegated(d: int, u: nat, q: int, r: int)
    requires d >= 0 && Splits(d, u, q, r)
    ensures Splits(-d, u, -q, -r)
  {
    assert -q * u == -(q * u);
    assert Rem(-d, MILLI) == -Rem(d, MILLI) && Rem(-r, MILLI) == -Rem(r, MILLI);
  }

  lemma UnitSplit(d: int, unit: nat)
    requires unit < 7
    ensures Splits(d, Nanos(unit), Quot(d, Nanos(unit)), Rem(d, Nanos(unit)))
  {
    UnitMillis(unit);
    UnitSplitUp(Abs(d), UnitAt(unit).seconds * 1000);
    if d < 0 {
      SplitsNegated(-d, Nanos(unit), -d / Nanos(unit), -d % Nanos(unit));
    }
  }

  /** A whole number of a unit, within a duration, is within the range a component may have. */
  lemma WholePart(q: int, unit: nat)
    requires unit < 7 && Abs(q * Nanos(unit)) <= -MIN
    ensures PartOf(Number(q, 0), unit) == Some(q * Nanos(unit))
  {
    var t := q * UnitAt(unit).seconds;
    assert q * Nanos(unit) == t * NANOS;
    assert Pow10(0) == 1;
    assert Abs(t * NANOS) < MAX;
  }

  lemma ExactRound(m: int, p: nat)
    requires p >= 1
    ensures Rounded(m * p, p) == m
  {
    DivUnique(m * p, p, m, 0);
  }

  lemma ExactRange(m: int, p: nat, limit: nat)
    requires p >= 1 && Abs(m) < limit
    ensures Abs(m * p) < limit * p
  {
    MulLe(m + 1, limit, p);
    MulLe(1 - m, limit, p);
    assert (m + 1) * p == m * p + p && (1 - m) * p == p - m * p;
  }

  lemma ExactPart(m: int, p: nat)
    requires p >= 1 && Abs(m) < MAX
    ensures Abs(m * p) < MAX * p && Rounded(m * p, p) == m
  {
    ExactRound(m, p);
    ExactRange(m, p, MAX);
  }

  lemma Nanoseconds(v: Number, ms: int)
    requires Thousandths(Some(v), ms)
    ensures v.n * NANOS == ms * MILLI * Pow10(v.k)
  {
    assert Pow10(0) == 1 && Pow10(1) == 10 && Pow10(2) == 100 && Pow10(3) == 1000;
    assert v.k == 0 || v.k == 1 || v.k == 2 || v.k == 3;
  }

  lemma SecondsPart(v: Number, ms: int)
    requires Thousandths(Some(v), ms) && Abs(ms) < 60_000
    ensures PartOf(v, 6) == Some(ms * MILLI)
  {
    Nanoseconds(v, ms);
    ExactPart(ms * MILLI, Pow10(v.k));
  }

  predicate OneSided(y: int, d: int) {
    (y >= 0 && d >= 0) || (y <= 0 && d <= 0)
  }

  function Value(a: Amount): int
    requires a.unit < 7
  {
    if a.unit == 6 then a.count * MILLI else a.count * Nanos(a.unit)
  }

  /** Units in order, the seconds under a minute. */
  predicate InOrder(amounts: seq<Amount>, next: nat) {
    amounts == [] || (next <= amounts[0].unit < 7 && (amounts[0].unit == 6 ==> Abs(amounts[0].count) < 60_000) &&
        InOrder(amounts[1..], amounts[0].unit + 1))
  }

  function Sum(amounts: seq<Amount>): int
    requires InOrder(amounts, 0)
  {
    if amounts == [] then 0 else
      InOrderLower(amounts[1..], amounts[0].unit + 1, 0);
      Value(amounts[0]) + Sum(amounts[1..])
  }

  lemma InOrderLower(amounts: seq<Amount>, from: nat, next: nat)
    requires InOrder(amounts, from) && next <= from
    ensures InOrder(amounts, next)
  {
  }

  /** All the amounts on the side of zero `d` is on. */
  predicate AllOnSide(d: int, amounts: seq<Amount>)
    requires InOrder(amounts, 0)
  {
    amounts == [] ||
    (InOrderLower(amounts[1..], amounts[0].unit + 1, 0); OneSided(d, Value(amounts[0])) && AllOnSide(d, amounts[1..]))
  }

  lemma {:induction false} SumOnSide(d: int, amounts: seq<Amount>)
    requires d != 0 && InOrder(amounts, 0) && AllOnSide(d, amounts)
    ensures OneSided(d, Sum(amounts))
  {
    if amounts != [] {
      InOrderLower(amounts[1..], amounts[0].unit + 1, 0);
      SumOnSide(d, amounts[1..]);
    }
  }

  /** What an amount is written as reads back as its value. */
  lemma AmountReads(a: Amount, y: int)
    requires a.unit < 7 && (a.unit == 6 ==> Abs(a.count) < 60_000) && Abs(Value(a)) <= -MIN && SumFits(y, Value(a))
    ensures ProperNumber(WrittenOf(a).number) && Add(WrittenOf(a), y) == Some(y + Value(a))
  {
    if a.unit == 6 {
      SignedSecondsReads(a.count);
      SecondsPart(Atod(SignedSeconds(a.count)).value, a.count);
    } else {
      SignedReads(a.count);
      WholePart(a.count, a.unit);
    }
  }

  lemma {:induction false} WrittenOrdered(amounts: seq<Amount>, next: nat)
    requires InOrder(amounts, next)
    ensures Ordered(AllWritten(amounts), next) && Ordered(AllWritten(amounts), 0)
    decreases |amounts|
  {
    if amounts != [] {
      var a := amounts[0];
      WrittenOrdered(amounts[1..], a.unit + 1);
      SignedReads(a.count);
      SignedSecondsReads(a.count);
      assert AllWritten(amounts)[1..] == AllWritten(amounts[1..]);
    }
  }

  /** Amounts on one side of zero come to their sum, no partial sum out of range. */
  lemma {:induction false} WrittenTotal(amounts: seq<Amount>, y: int, d: int)
    requires d != 0 && InOrder(amounts, 0) && AllOnSide(d, amounts) && OneSided(d, y) && Fits(y + Sum(amounts))
    requires Ordered(AllWritten(amounts), 0)
    ensures Total(AllWritten(amounts), y) == Some(y + Sum(amounts))
    decreases |amounts|
  {
    if amounts != [] {
      WrittenHead(amounts, y, d);
      WrittenTotal(amounts[1..], y + Value(amounts[0]), d);
    }
  }

  lemma WrittenHead(amounts: seq<Amount>, y: int, d: int)
    requires d != 0 && amounts != [] && InOrder(amounts, 0) && AllOnSide(d, amounts) && OneSided(d, y) && Fits(y + Sum(amounts))
    requires Ordered(AllWritten(amounts), 0)
    ensures InOrder(amounts[1..], 0) && Ordered(AllWritten(amounts[1..]), 0)
    ensures Total(AllWritten(amounts), y) == Total(AllWritten(amounts[1..]), y + Value(amounts[0])) && OneSided(d, y + Value(amounts[0]))
  {
    var a, rest := amounts[0], amounts[1..];
    InOrderLower(rest, a.unit + 1, 0);
    WrittenOrdered(rest, 0);
    SumOnSide(d, rest);
    SumInRange(y, Value(a), Sum(rest), d);
    AmountReads(a, y);
    TotalCons(WrittenOf(a), AllWritten(rest), y);
  }

  lemma SumInRange(y: int, v: int, s: int, d: int)
    requires d != 0 && OneSided(d, y) && OneSided(d, v) && OneSided(d, s) && Fits(y + v + s)
    ensures SumFits(y, v) && Abs(v) <= -MIN && OneSided(d, y + v)
  {
  }

  // ---- A duration's amounts ----

  lemma MillisWhole(d: int)
    ensures Quot(d, MILLI) * MILLI == Milliseconds(d) && OneSided(d, Milliseconds(d))
    ensures Abs(d) < Nanos(5) ==> Abs(Quot(d, MILLI)) < 60_000
  {
  }

  lemma SplitSides(d: int, u: nat, q: int, r: int)
    requires Splits(d, u, q, r)
    ensures OneSided(d, q * u)
  {
    if q >= 0 {
      MulLe(0, q, u);
    } else {
      MulLe(q, 0, u);
    }
  }

  /** In order, on the duration's side of zero, and coming to the duration to the millisecond. */
  predicate Breaks(d: int, amounts: seq<Amount>, next: nat, side: int) {
    InOrder(amounts, next) && InOrder(amounts, 0) && AllOnSide(side, amounts) && Sum(amounts) == Milliseconds(d)
  }

  lemma LastBreaks(d: int, side: int)
    requires Abs(d) < Nanos(5) && (side > 0 ==> d >= 0) && (side < 0 ==> d <= 0) && side != 0
    ensures Breaks(d, Amounts(d, 6), 6, side)
  {
    MillisWhole(d);
    if d != 0 {
      var a := Amount(Quot(d, MILLI), 6);
      assert Amounts(d, 6) == [a] && [a][1..] == [];
    }
  }

  lemma BreaksMore(d: int, r: int, a: Amount, rest: seq<Amount>, side: int)
    requires a.unit < 6 && Breaks(r, rest, a.unit + 1, side) && OneSided(side, Value(a)) && Milliseconds(d) == Value(a) + Milliseconds(r)
    ensures Breaks(d, [a] + rest, a.unit, side)
  {
    assert ([a] + rest)[1..] == rest;
  }

  lemma BreaksLower(d: int, amounts: seq<Amount>, from: nat, next: nat, side: int)
    requires Breaks(d, amounts, from, side) && next <= from
    ensures Breaks(d, amounts, next, side)
  {
    InOrderLower(amounts, from, next);
  }

  lemma {:induction false} AmountsBreak(d: int, unit: nat, side: int)
    requires unit < 7 && (unit == 6 ==> Abs(d) < Nanos(5)) && (side > 0 ==> d >= 0) && (side < 0 ==> d <= 0) && side != 0
    ensures Breaks(d, Amounts(d, unit), unit, side)
    decreases 7 - unit
  {
    if unit == 6 {
      LastBreaks(d, side);
    } else {
      var u := Nanos(unit);
      var q, r := Quot(d, u), Rem(d, u);
      var rest := Amounts(r, NextUnit(unit));
      UnitSplit(d, unit);
      assert Abs(r) < u;
      AmountsBreak(r, NextUnit(unit), side);
      BreaksLower(r, rest, NextUnit(unit), unit + 1, side);
      if Abs(d) >= u {
        SplitSides(d, u, q, r);
        BreaksMore(d, r, Amount(q, unit), rest, side);
      } else {
        assert Amounts(d, unit) == rest;
        BreaksLower(r, rest, unit + 1, unit, side);
      }
    }
  }

  lemma {:induction false} AmountsSome(d: int, unit: nat)
    requires unit < 7 && d != 0
    ensures Amounts(d, unit) != []
    decreases 7 - unit
  {
    if unit < 6 && Abs(d) < Nanos(unit) {
      UnitSplit(d, unit);
      AmountsSome(d, NextUnit(unit));
    }
  }

  lemma AllAmountsBreak(d: int)
    ensures Breaks(d, AllAmounts(d), 0, if d == 0 then 1 else d) && AllAmounts(d) != []
  {
    if d == 0 {
      assert AllAmounts(d)[1..] == [];
    } else {
      AmountsBreak(d, 0, d);
      AmountsSome(d, 0);
    }
  }

  lemma AllWrittenOrdered(d: int)
    ensures Ordered(AllWritten(AllAmounts(d)), 0)
  {
    AllAmountsBreak(d);
    WrittenOrdered(AllAmounts(d), 0);
  }

  /** The text of a duration. */
  function Text(d: int): string {
    AllWrittenOrdered(d);
    "P" + Render(AllWritten(AllAmounts(d)), false)
  }

  /** The parser undoes the printer for every duration, negative and mixed ones included, but for what is finer than a millisecond. */
  lemma RoundTrip(d: int)
    requires Fits(d)
    ensures Parse(Text(d)) == Ok(Milliseconds(d))
  {
    var cs := AllWritten(AllAmounts(d));
    AllTotal(d);
    RenderReads(cs, State(false, 0, false, 0));
    assert Text(d)[1..] == Render(cs, false);
  }

  lemma AllTotal(d: int)
    requires Fits(d)
    ensures Ordered(AllWritten(AllAmounts(d)), 0) && AllWritten(AllAmounts(d)) != []
    ensures Total(AllWritten(AllAmounts(d)), 0) == Some(Milliseconds(d))
  {
    AllAmountsBreak(d);
    AllWrittenOrdered(d);
    MillisFit(d);
    WrittenTotal(AllAmounts(d), 0, if d == 0 then 1 else d);
  }

  lemma MillisFit(d: int)
    requires Fits(d)
    ensures Fits(Milliseconds(d))
  {
  }

  // ---- The printer's own steps ----

  ghost function Rest(d: int, unit: nat, time: bool): string
    requires unit < 7 && (unit == 6 ==> Abs(d) < Nanos(5))
  {
    AmountsOrdered(d, unit);
    Render(AllWritten(Amounts(d, unit)), time)
  }

  lemma AmountsOrdered(d: int, unit: nat)
    requires unit < 7 && (unit == 6 ==> Abs(d) < Nanos(5))
    ensures Ordered(AllWritten(Amounts(d, unit)), unit) && Ordered(AllWritten(Amounts(d, unit)), 0)
  {
    AmountsBreak(d, unit, if d == 0 then 1 else d);
    WrittenOrdered(Amounts(d, unit), unit);
  }

  /** What is left for the seconds is under a minute. */
  lemma Leftover(d: int, unit: nat)
    requires unit < 6
    ensures NextUnit(unit) == 6 ==> Abs(Rem(d, Nanos(unit))) < Nanos(5)
  {
  }

  lemma RestOutput(d: int, unit: nat, time: bool)
    requires unit < 6 && (time <==> unit >= 4) && (NextUnit(unit) == 6 ==> Abs(Rem(d, Nanos(unit))) < Nanos(5))
    ensures var left := Rest(Rem(d, Nanos(unit)), NextUnit(unit), time);
            Rest(d, unit, time) == if Abs(d) < Nanos(unit) then left else Signed(Quot(d, Nanos(unit))) + [UnitAt(unit).designator] + left
  {
    AmountsOrdered(d, unit);
    var r := Rem(d, Nanos(unit));
    var rest := Amounts(r, NextUnit(unit));
    AmountsOrdered(r, NextUnit(unit));
    if Abs(d) < Nanos(unit) {
      assert Amounts(d, unit) == rest;
    } else {
      var cs := AllWritten(Amounts(d, unit));
      assert Amounts(d, unit)[1..] == rest;
      assert cs[0] == Written(Signed(Quot(d, Nanos(unit))), unit) && cs[1..] == AllWritten(rest);
      RenderPlain(Piece(cs[0], Render(cs[1..], time)), cs, time);
    }
  }

  lemma RestTime(d: int)
    ensures Rest(d, 4, false) == if d == 0 then "" else "T" + Rest(d, 4, true)
  {
    AmountsOrdered(d, 4);
    var cs := AllWritten(Amounts(d, 4));
    if d == 0 {
      NoAmounts(4);
    } else {
      AmountsSome(d, 4);
      RenderMarked("T" + Render(cs, true), cs);
    }
  }

  lemma {:induction false} NoAmounts(unit: nat)
    requires unit < 7
    ensures Amounts(0, unit) == []
    decreases 7 - unit
  {
    if unit < 6 {
      NoAmounts(NextUnit(unit));
    }
  }

  /** One unit printed, and its whole number taken off. */
  method Output(os: string, d: int, unit: nat, ghost time: bool) returns (text: string, left: int)
    requires unit < 6 && (time <==> unit >= 4)
    ensures left == Rem(d, Nanos(unit)) && (NextUnit(unit) == 6 ==> Abs(left) < Nanos(5))
    ensures text + Rest(left, NextUnit(unit), time) == os + Rest(d, unit, time)
  {
    text, left := os, d;
    Leftover(d, unit);
    RestOutput(d, unit, time);
    if Abs(d) >= Nanos(unit) {
      text := os + (Signed(Quot(d, Nanos(unit))) + [UnitAt(unit).designator]);
      left := Rem(d, Nanos(unit));
      assert text + Rest(left, NextUnit(unit), time) == os + (Signed(Quot(d,
          Nanos(unit))) + [UnitAt(unit).designator] + Rest(left, NextUnit(unit), time));
    } else {
      UnitSplit(d, unit);
    }
  }

  /** Milliseconds under a minute, as seconds. */
  method PrintSeconds(count: int) returns (os: string)
    ensures os == SignedSeconds(count)
  {
    var ms := Abs(count);
    os := Digits(ms / 1000);
    var frac := ms % 1000;
    if frac != 0 {
      os := os + "." + (if frac < 100 then "0" else "") + (if frac < 10 then "0" else "");
      ghost var f := frac;
      while frac % 10 == 0
        invariant frac > 0 && Trimmed(frac) == Trimmed(f)
        decreases frac
      {
        frac := frac / 10;
      }
      os := os + Digits(frac);
      assert os == Digits(ms / 1000) + ("." + Fraction(f));
    }
    if count < 0 {
      os := "-" + os;
    }
  }

  lemma ZeroText()
    ensures Text(0) == "PT0S"
  {
    AllWrittenOrdered(0);
    var cs := AllWritten(AllAmounts(0));
    assert AllAmounts(0)[1..] == [];
    assert Digits(0) == [Digit(0)] == "0" && SecondsText(0) == Digits(0) + "" == "0";
    assert cs == [Written("0", 6)] && cs[1..] == [];
    assert Render(cs, false) == "T" + Piece(cs[0], "");
  }

  /** Hours, minutes and seconds. */
  method TimeText(os: string, duration: int) returns (text: string)
    ensures text == os + Rest(duration, 4, true)
  {
    var d;
    text, d := Output(os, duration, 4, true);
    text, d := Output(text, d, 5, true);
    LastRest(d);
    if d != 0 {
      var seconds := PrintSeconds(Quot(d, MILLI));
      text := text + (seconds + "S");
    }
  }

  method ToString(duration: int) returns (os: string)
    requires Fits(duration)
    ensures os == Text(duration)
  {
    if duration == 0 {
      ZeroText();
      return "PT0S";
    }
    var d;
    os, d := Output("P", duration, 0, false);
    os, d := Output(os, d, 1, false);
    os, d := Output(os, d, 3, false);
    assert os + Rest(d, 4, false) == Text(duration);
    RestTime(d);
    if d != 0 {
      var time := TimeText("T", d);
      os := os + time;
    }
  }

  lemma LastRest(d: int)
    requires Abs(d) < Nanos(5)
    ensures Rest(d, 6, true) == if d == 0 then "" else SignedSeconds(Quot(d, MILLI)) + "S"
  {
    if d != 0 {
      AmountsOrdered(d, 6);
      var w := Written(SignedSeconds(Quot(d, MILLI)), 6);
      assert Amounts(d, 6)[1..] == [];
      var cs := AllWritten(Amounts(d, 6));
      assert cs == [w] && cs[1..] == [];
      RenderPlain(Piece(w, ""), cs, true);
    }
  }
}
