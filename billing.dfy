/**
 * The bills backend: it turns an account's billing lines into bills and
 * bill lines, and formats a line's period, description and quantity.
 *
 * Amounts are integers in the currency's smallest unit; `metric` and
 * `size` are fixed-point numbers in hundredths, so a quantity
 * `metric * size` is in ten-thousandths.
 */
module Billing {

  import opened Common
  import opened Text

  // ------------------------------------------------------------- format_period

  /**
   * A `datetime`: `micros` counts the microseconds since midnight. Only
   * "first day of the month" matters to the formatting, so every month is
   * allowed 31 days.
   */
  datatype Moment = Moment(year: int, month: int, day: int, micros: int)
  {
    predicate Valid()
    {
      1 <= year <= 9999 && 1 <= month <= 12 && 1 <= day <= 31 && 0 <= micros < 86_400_000_000
    }
  }

  datatype PeriodError =
    | StrftimeBefore1900  // `strftime` refuses years before 1900
    | Overflow            // `end - timedelta(seconds=1)` falls before `datetime.min`

  function MonthAbbrev(month: int): (abbrev: string)
    requires 1 <= month <= 12
    ensures |abbrev| == 3
  {
    ["Jan", "Feb", "Mar", "Apr", "May", "Jun", "Jul", "Aug", "Sep", "Oct", "Nov", "Dec"][month - 1]
  }

  lemma MonthAbbrevInjective(a: int, b: int)
    requires 1 <= a <= 12 && 1 <= b <= 12 && MonthAbbrev(a) == MonthAbbrev(b)
    ensures a == b
  {
  }

  /** `strftime("%b, %Y")` for a year from 1900 on. */
  function Label(year: nat, month: int): string
    requires 1 <= month <= 12
  {
    MonthAbbrev(month) + ", " + NatToString(year)
  }

  /** Different months or years give different labels. */
  lemma LabelInjective(y1: nat, m1: int, y2: nat, m2: int)
    requires 1 <= m1 <= 12 && 1 <= m2 <= 12 && Label(y1, m1) == Label(y2, m2)
    ensures y1 == y2 && m1 == m2
  {
    var l1, l2 := Label(y1, m1), Label(y2, m2);
    assert l1[..3] == MonthAbbrev(m1) && l2[..3] == MonthAbbrev(m2);
    MonthAbbrevInjective(m1, m2);
    assert l1[5..] == NatToString(y1) && l2[5..] == NatToString(y2);
    NatToStringInjective(y1, y2);
  }

  /** One second before `end` falls before `datetime.min`. */
  predicate Underflows(end: Moment)
  {
    end.year == 1 && end.month == 1 && end.day == 1 && end.micros < 1_000_000
  }

  /** The year and month one second before `end`: the previous month only on its first second. */
  function MonthBefore(end: Moment): (ym: (int, int))
    requires end.Valid() && !Underflows(end)
    ensures 1 <= ym.0 <= 9999 && 1 <= ym.1 <= 12
    ensures ym != (end.year, end.month) <==> end.day == 1 && end.micros < 1_000_000
  {
    if end.day == 1 && end.micros < 1_000_000 then
      if end.month == 1 then (end.year - 1, 12) else (end.year, end.month - 1)
    else (end.year, end.month)
  }

  /**
   * `format_period`: "Mon, YYYY" of `ini`, and of one second before `end`;
   * one label when they agree, "ini to end" otherwise.
   */
  function FormatPeriod(ini: Moment, end: Moment): (r: Result<string, PeriodError>)
    requires ini.Valid() && end.Valid()
    ensures r.Err? <==> ini.year < 1900 || Underflows(end) || MonthBefore(end).0 < 1900
    ensures r.Err? ==> (r.error == Overflow <==> ini.year >= 1900 && Underflows(end))
  {
    if ini.year < 1900 then Err(StrftimeBefore1900)
    else if Underflows(end) then Err(Overflow)
    else
      var (y, m) := MonthBefore(end);
      if y < 1900 then Err(StrftimeBefore1900)
      else
        var first, last := Label(ini.year, ini.month), Label(y, m);
        if first == last then Ok(first) else Ok(first + " to " + last)
  }

  /**
   * The period is the single label of `ini` exactly when one second before
   * `end` is in the same month of the same year, and the two labels joined
   * by " to " otherwise; it fails exactly for years before 1900 and below
   * `datetime.min`.
   */
  lemma FormatPeriodShape(ini: Moment, end: Moment)
    requires ini.Valid() && end.Valid()
    ensures FormatPeriod(ini, end).Err? <==>
      ini.year < 1900 || Underflows(end) || MonthBefore(end).0 < 1900
    ensures FormatPeriod(ini, end).Ok? ==>
      var single := (ini.year, ini.month) == MonthBefore(end);
      var (y, m) := MonthBefore(end);
      && (single ==> FormatPeriod(ini, end) == Ok(Label(ini.year, ini.month)))
      && (!single ==> FormatPeriod(ini, end) == Ok(Label(ini.year, ini.month) + " to " + Label(y, m)))
  {
    if FormatPeriod(ini, end).Ok? {
      var (y, m) := MonthBefore(end);
      if Label(ini.year, ini.month) == Label(y, m) {
        LabelInjective(ini.year, ini.month, y, m);
      }
    }
  }

  // ------------------------------------------------------- get_line_description

  datatype BillingPeriod = Never | Monthly | Annual | Other(name: string)

  datatype Service = Service(isFee: bool, nominalPrice: int, tax: int, billingPeriod: BillingPeriod)

  datatype Order = Order(id: nat, service: Service, description: string,
                         oldBilledOn: Option<Moment>, oldBilledUntil: Option<Moment>)

  datatype Discount = Discount(dtype: string, total: int)

  /** A billing line, as the billing engine hands it to the backend. */
  datatype Line = Line(order: Order, metric: int, size: int, subtotal: int, ini: Moment, end: Moment,
                       discounts: seq<Discount>)
  {
    predicate Valid()
    {
      ini.Valid() && end.Valid()
    }
  }

  /** `get_line_description`. */
  function LineDescription(line: Line): (r: Result<string, PeriodError>)
    requires line.Valid()
    ensures r.Err? <==>
      (line.order.service.isFee || line.order.service.billingPeriod != Never)
      && FormatPeriod(line.ini, line.end).Err?
    ensures r.Err? ==> r.error == FormatPeriod(line.ini, line.end).error
    ensures r.Ok? && !line.order.service.isFee ==> StartsWith(r.value, line.order.description)
  {
    var service := line.order.service;
    if service.isFee then FormatPeriod(line.ini, line.end)
    else if service.billingPeriod != Never then
      match FormatPeriod(line.ini, line.end)
      case Ok(period) => Ok(line.order.description + " " + period)
      case Err(e) => Err(e)
    else Ok(line.order.description)
  }

  /**
   * A fee line is described by its period alone; another line by the
   * order's description, followed by a space and the period unless the
   * service is never billed periodically, in which case the period is not
   * even formatted and cannot fail.
   */
  lemma LineDescriptionCases(line: Line)
    requires line.Valid()
    ensures line.order.service.isFee ==> LineDescription(line) == FormatPeriod(line.ini, line.end)
    ensures !line.order.service.isFee && line.order.service.billingPeriod == Never ==>
      LineDescription(line) == Ok(line.order.description)
    ensures !line.order.service.isFee && line.order.service.billingPeriod != Never ==>
      (LineDescription(line).Err? <==> FormatPeriod(line.ini, line.end).Err?)
      && (LineDescription(line).Ok? ==>
            LineDescription(line).value
              == line.order.description + " " + FormatPeriod(line.ini, line.end).value)
  {
  }

  // ------------------------------------------------------- get_verbose_quantity

  function Abs(h: int): nat
  {
    if h < 0 then -h else h
  }

  /** The sign and the integer part of `format(x, '.2f')`, for `x` given in hundredths. */
  function Whole(h: int): (w: string)
    ensures w != [] && '0' <= w[|w| - 1] <= '9' && '.' !in w
    ensures h >= 0 ==> w == NatToString(h / 100)
    ensures h < 0 ==> w[0] == '-'
  {
    (if h < 0 then "-" else "") + NatToString(Abs(h) / 100)
  }

  /** `format(x, '.2f')` for `x` given in hundredths. */
  function Fixed2(h: int): string
  {
    Whole(h) + "." + [Digit(Abs(h) % 100 / 10), Digit(Abs(h) % 10)]
  }

  /** `format(x, '.2f').rstrip('0').rstrip('.')`. */
  function Trimmed(h: int): string
  {
    RStrip(RStrip(Fixed2(h), '0'), '.')
  }

  lemma RStripKeeps(s: string, c: char)
    requires s != [] && s[|s| - 1] != c
    ensures RStrip(s, c) == s
  {
  }

  lemma RStripDrops(s: string, c: char)
    ensures RStrip(s + [c], c) == RStrip(s, c)
  {
    assert (s + [c])[..|s|] == s;
  }

  /** Two zero decimals go, and so does the dot before them. */
  lemma TrimmedWhole(h: int)
    requires Abs(h) % 100 == 0
    ensures Trimmed(h) == Whole(h)
  {
    var w := Whole(h);
    assert Fixed2(h) == w + "." + ['0'] + ['0'];
    RStripDrops(w + "." + ['0'], '0');
    RStripDrops(w + ".", '0');
    RStripKeeps(w + ".", '0');
    assert w + "." == w + ['.'];
    RStripDrops(w, '.');
    RStripKeeps(w, '.');
  }

  /** One zero decimal goes. */
  lemma TrimmedTenths(h: int)
    requires Abs(h) % 10 == 0 && Abs(h) % 100 != 0
    ensures Trimmed(h) == Whole(h) + "." + [Digit(Abs(h) % 100 / 10)]
  {
    var x := Whole(h) + "." + [Digit(Abs(h) % 100 / 10)];
    TensDigit(Abs(h));
    assert Fixed2(h) == x + ['0'];
    RStripDrops(x, '0');
    RStripKeeps(x, '0');
    RStripKeeps(x, '.');
  }

  lemma TensDigit(a: nat)
    requires a % 10 == 0 && a % 100 != 0
    ensures 0 < a % 100 / 10 < 10 && Digit(a % 100 / 10) != '0'
  {
    var t := a % 100;
    assert a == 100 * (a / 100) + t;
    assert t % 10 == 0;
  }

  /** A last decimal other than zero keeps everything. */
  lemma TrimmedHundredths(h: int)
    requires Abs(h) % 10 != 0
    ensures Trimmed(h) == Fixed2(h)
  {
    RStripKeeps(Fixed2(h), '0');
    RStripKeeps(Fixed2(h), '.');
  }

  /** The trimmed number never ends in ".00": the two `.00` branches of the source are dead. */
  lemma TrimmedNeverDotZeroZero(h: int)
    ensures !EndsWith(Trimmed(h), ".00")
  {
    var t := Trimmed(h);
    if Abs(h) % 100 == 0 {
      TrimmedWhole(h);
      if |t| >= 3 {
        assert t[|t| - 3] in t;
      }
    } else if Abs(h) % 10 == 0 {
      TrimmedTenths(h);
      assert t[|t| - 1] != '0';
    } else {
      TrimmedHundredths(h);
      assert t[|t| - 1] != '0';
    }
  }

  /** The trimmed number is "1" exactly for one. */
  lemma TrimmedIsOne(h: int)
    ensures Trimmed(h) == "1" <==> h == 100
  {
    var t := Trimmed(h);
    if Abs(h) % 100 != 0 {
      if Abs(h) % 10 == 0 {
        TrimmedTenths(h);
      } else {
        TrimmedHundredths(h);
      }
      assert |t| > 1;
    } else if h < 0 {
      TrimmedWhole(h);
      assert t[0] == '-';
    } else {
      TrimmedWhole(h);
      WholeIsOne(h);
    }
  }

  lemma WholeIsOne(h: int)
    requires h >= 0
    ensures Whole(h) == "1" <==> h / 100 == 1
  {
    var w := Whole(h);
    assert NatToString(1) == "1";
    if w == "1" {
      NatToStringInjective(h / 100, 1);
    }
  }

  /** `metric.split('.')[0]`: the text before the first dot. */
  function BeforeDot(s: string): (r: string)
    ensures r <= s && '.' !in r
  {
    if s == [] || s[0] == '.' then [] else [s[0]] + BeforeDot(s[1..])
  }

  /**
   * `get_verbose_quantity`, with its two `.00` branches as written
   * (the second one takes the text before the dot of `metric`, not of `size`).
   * Those branches are dead, so a metric of one shows the size alone, else
   * a size of one shows the metric alone, else both joined by "&times;".
   */
  function VerboseQuantity(metric: int, size: int): (q: string)
    ensures q ==
      if metric == 100 then Trimmed(size)
      else if size == 100 then Trimmed(metric)
      else Trimmed(metric) + "&times;" + Trimmed(size)
  {
    TrimmedNeverDotZeroZero(metric);
    TrimmedNeverDotZeroZero(size);
    TrimmedIsOne(metric);
    TrimmedIsOne(size);
    var m := Trimmed(metric);
    var m := if EndsWith(m, ".00") then BeforeDot(m) else m;
    var s := Trimmed(size);
    var s := if EndsWith(s, ".00") then BeforeDot(m) else s;
    if m == "1" then s
    else if s == "1" then m
    else m + "&times;" + s
  }

  // ---------------------------------------------------------- create_sublines

  datatype Subline = Subline(description: string, total: int, dtype: string)

  /** The subline of one discount. */
  function DiscountSubline(d: Discount): Subline
  {
    Subline("Discount per " + Lower(d.dtype), d.total, d.dtype)
  }

  /** `create_sublines`: one subline per discount, in order. */
  method CreateSublines(discounts: seq<Discount>) returns (sublines: seq<Subline>)
    ensures |sublines| == |discounts|
    ensures forall i :: 0 <= i < |discounts| ==>
      && sublines[i].total == discounts[i].total
      && sublines[i].dtype == discounts[i].dtype
      && sublines[i].description == "Discount per " + Lower(discounts[i].dtype)
  {
    sublines := [];
    for i := 0 to |discounts|
      invariant |sublines| == i
      invariant forall k :: 0 <= k < i ==> sublines[k] == DiscountSubline(discounts[k])
    {
      var discount := discounts[i];
      sublines := sublines + [Subline("Discount per " + Lower(discount.dtype), discount.total, discount.dtype)];
    }
  }

  // ------------------------------------------------------------- create_bills

  datatype BillKind = Invoice | Fee | ProForma

  datatype BillLine = BillLine(
    rate: int,
    quantity: int,
    verboseQuantity: string,
    subtotal: int,
    tax: int,
    description: string,
    order: nat,
    orderBilledOn: Option<Moment>,
    orderBilledUntil: Option<Moment>,
    sublines: seq<Subline>)

  datatype Bill = Bill(kind: BillKind, account: nat, isOpen: bool, lines: seq<BillLine>)

  /** The bill line `create_bills` writes for `line`, with its sublines. */
  function LineOf(line: Line, description: string): BillLine
  {
    BillLine(line.order.service.nominalPrice, line.metric * line.size,
             VerboseQuantity(line.metric, line.size), line.subtotal, line.order.service.tax,
             description, line.order.id, line.order.oldBilledOn, line.order.oldBilledUntil,
             seq(|line.discounts|, i requires 0 <= i < |line.discounts| => DiscountSubline(line.discounts[i])))
  }

  /** `Kind.objects.filter(account=account, is_open=True).last()`: the newest such bill. */
  function LastOpen(bills: seq<Bill>, account: nat, kind: BillKind): (r: Option<nat>)
    ensures r.Some? ==>
      r.value < |bills| && bills[r.value].account == account && bills[r.value].isOpen
      && bills[r.value].kind == kind
    ensures forall i :: (r.Some? ==> r.value < i) && 0 <= i < |bills| ==>
             !(bills[i].account == account && bills[i].isOpen && bills[i].kind == kind)
  {
    if bills == [] then None
    else
      var last := bills[|bills| - 1];
      if last.account == account && last.isOpen && last.kind == kind then Some(|bills| - 1)
      else LastOpen(bills[..|bills| - 1], account, kind)
  }

  /** The options of `create_bills`. `openByDefault` is the `is_open` a bill created without it gets. */
  datatype Options = Options(newOpen: bool, proforma: bool, openByDefault: bool)

  /** The kind of bill a line gets: always ProForma in proforma mode, else Fee for a fee line, else Invoice. */
  function KindFor(options: Options, isFee: bool): BillKind
  {
    if options.proforma then ProForma else if isFee then Fee else Invoice
  }

  /** A bill of this kind is always created, never looked up. */
  predicate AlwaysNew(options: Options, isFee: bool)
  {
    options.newOpen || KindFor(options, isFee) == Fee
  }

  /**
   * The bill a line that needs one gets: its index, after `bills` has
   * grown by the bill if it had to be created.
   */
  function Open(bills: seq<Bill>, account: nat, options: Options, isFee: bool): (r: (seq<Bill>, nat))
    ensures r.1 < |r.0|
    ensures r.0 == bills || r.0 == bills + [r.0[r.1]]
    ensures r.0[r.1].account == account && r.0[r.1].lines == (if r.1 < |bills| then bills[r.1].lines else [])
    ensures r.0[r.1].kind == KindFor(options, isFee)
    ensures AlwaysNew(options, isFee) ==> r.1 == |bills|
    ensures !AlwaysNew(options, isFee) && LastOpen(bills, account, KindFor(options, isFee)).Some? ==>
      r == (bills, LastOpen(bills, account, KindFor(options, isFee)).value)
    ensures r.1 == |bills| ==>
      r.0 == bills + [r.0[r.1]] && r.0[r.1].isOpen == (if AlwaysNew(options, isFee) then options.openByDefault else true)
    ensures r.1 < |bills| ==> r.0[r.1].isOpen && r.1 == LastOpen(bills, account, r.0[r.1].kind).value
  {
    var kind := KindFor(options, isFee);
    if AlwaysNew(options, isFee) then
      (bills + [Bill(kind, account, options.openByDefault, [])], |bills|)
    else
      match LastOpen(bills, account, kind)
      case Some(i) => (bills, i)
      case None => (bills + [Bill(kind, account, true, [])], |bills|)
  }

  /**
   * The state of `create_bills` between lines: the bills table, the
   * current bill, the list of bills it returns, and the error that stopped it.
   */
  datatype Progress = Progress(bills: seq<Bill>, current: Option<nat>, listed: seq<nat>,
                               failure: Option<PeriodError>)

  predicate LinesValid(lines: seq<Line>)
  {
    forall i :: 0 <= i < |lines| ==> lines[i].Valid()
  }

  /** A state the loop can be in: its current bill and the listed bills exist, and an error comes after a bill. */
  predicate Consistent(p: Progress)
  {
    && (p.current.Some? ==> p.current.value < |p.bills|)
    && (p.failure.Some? ==> p.current.Some?)
    && (forall k :: 0 <= k < |p.listed| ==> p.listed[k] < |p.bills|)
    && (p.listed != [] ==> p.current == Some(p.listed[|p.listed| - 1]))
    && (p.current.Some? ==> p.listed != [])
  }

  /**
   * The bill a line goes to: a bill from `Open`, listed, for the first
   * line and for fee lines; the current bill for the others.
   */
  function Claim(p: Progress, account: nat, options: Options, isFee: bool): (r: (seq<Bill>, nat, seq<nat>))
    requires Consistent(p) && p.failure.None?
    requires p.current.Some? ==> p.bills[p.current.value].account == account
    ensures r.1 < |r.0| && r.0[r.1].account == account
    ensures r.2 == p.listed || r.2 == p.listed + [r.1]
    ensures r.2 != [] && r.2[|r.2| - 1] == r.1
    ensures Extends(p.bills, r.0, account)
    ensures r.0[r.1].lines == (if r.1 < |p.bills| then p.bills[r.1].lines else [])
    ensures r.2 == p.listed + [r.1] ==>
      r.0[r.1].kind == KindFor(options, isFee)
    ensures p.current.None? || isFee ==>
      (r.0, r.1) == Open(p.bills, account, options, isFee) && r.2 == p.listed + [r.1]
    ensures p.current.Some? && !isFee ==> r == (p.bills, p.current.value, p.listed)
  {
    if p.current.None? || isFee then
      var (bills, i) := Open(p.bills, account, options, isFee);
      (bills, i, p.listed + [i])
    else (p.bills, p.current.value, p.listed)
  }

  /** The bills with one more line on bill `c`. */
  function Attach(bills: seq<Bill>, c: nat, line: BillLine): (r: seq<Bill>)
    requires c < |bills|
    ensures |r| == |bills| && r[c].lines == bills[c].lines + [line]
    ensures forall k :: 0 <= k < |bills| && k != c ==> r[k] == bills[k]
    ensures bills[c].account == r[c].account && Extends(bills, r, r[c].account)
  {
    var r := bills[c := bills[c].(lines := bills[c].lines + [line])];
    assert bills[c].lines <= r[c].lines;
    r
  }

  /**
   * What a line brings to its bill: nothing when its quantity is zero;
   * otherwise its bill line, or the error formatting its period raised.
   */
  function Entry(line: Line): (e: Option<Result<BillLine, PeriodError>>)
    requires line.Valid()
    ensures e.None? <==> line.metric * line.size == 0
    ensures e.Some? ==> (e.value.Err? <==> LineDescription(line).Err?)
    ensures e.Some? && e.value.Err? ==> e.value.error == LineDescription(line).error
    ensures e.Some? && e.value.Ok? ==> e.value.value == LineOf(line, LineDescription(line).value)
  {
    if line.metric * line.size == 0 then None
    else
      match LineDescription(line)
      case Err(e) => Some(Err(e))
      case Ok(description) => Some(Ok(LineOf(line, description)))
  }

  /** One iteration of the loop of `create_bills`, for a line of a fee service or not, bringing `entry`. */
  function Step(p: Progress, account: nat, options: Options, isFee: bool,
                entry: Option<Result<BillLine, PeriodError>>): (r: Progress)
    requires Consistent(p)
    requires p.current.Some? ==> p.bills[p.current.value].account == account
    ensures Consistent(r) && r.current.Some?
    ensures r.bills[r.current.value].account == account
    ensures |p.bills| <= |r.bills|
    ensures p.failure.Some? ==> r == p
  {
    if p.failure.Some? then p
    else
      var (bills, current, listed) := Claim(p, account, options, isFee);
      match entry
      case None => Progress(bills, Some(current), listed, None)
      case Some(Err(e)) => Progress(bills, Some(current), listed, Some(e))
      case Some(Ok(billLine)) => Progress(Attach(bills, current, billLine), Some(current), listed, None)
  }

  /** The state after the given lines. */
  function Run(bills: seq<Bill>, account: nat, options: Options, lines: seq<Line>): (p: Progress)
    requires LinesValid(lines)
    ensures Consistent(p)
    ensures p.current.Some? ==> p.bills[p.current.value].account == account
    ensures |bills| <= |p.bills|
    ensures p.current.None? <==> lines == []
    ensures lines == [] ==> p == Progress(bills, None, [], None)
  {
    if lines == [] then Progress(bills, None, [], None)
    else
      var q := Run(bills, account, options, lines[..|lines| - 1]);
      var last := lines[|lines| - 1];
      Step(q, account, options, last.order.service.isFee, Entry(last))
  }

  /**
   * A line that needs a bill (the first line, or a fee line) is listed
   * under the bill `Open` gives; any other line stays with the current
   * bill, even after a fee line. A line bringing nothing adds no bill
   * line; a line bringing an error stops the loop; any other line adds
   * exactly its own bill line to the current bill and touches no other
   * bill's lines.
   */
  lemma StepAttaches(p: Progress, account: nat, options: Options, isFee: bool,
                     entry: Option<Result<BillLine, PeriodError>>)
    requires Consistent(p) && p.failure.None?
    requires p.current.Some? ==> p.bills[p.current.value].account == account
    ensures var r := Step(p, account, options, isFee, entry);
      var c := r.current.value;
      && (p.current.Some? && !isFee ==> r.current == p.current && r.listed == p.listed)
      && (p.current.None? || isFee ==>
            r.listed == p.listed + [c] && c == Open(p.bills, account, options, isFee).1)
      && (r.failure.Some? <==> entry.Some? && entry.value.Err?)
      && (entry.None? ==> forall k :: 0 <= k < |p.bills| ==> r.bills[k].lines == p.bills[k].lines)
      && (entry.Some? && entry.value.Ok? ==>
            && r.bills[c].lines == (if c < |p.bills| then p.bills[c].lines else []) + [entry.value.value]
            && forall k :: 0 <= k < |p.bills| && k != c ==> r.bills[k].lines == p.bills[k].lines)
  {
  }

  /** How a step's bills relate to the bills before it. */
  predicate Extends(before: seq<Bill>, after: seq<Bill>, account: nat)
  {
    && |before| <= |after|
    && (forall k :: 0 <= k < |before| ==>
          && after[k].kind == before[k].kind && after[k].account == before[k].account
          && after[k].isOpen == before[k].isOpen && before[k].lines <= after[k].lines)
    && (forall k :: 0 <= k < |before| && before[k].account != account ==> after[k] == before[k])
    && (forall k :: |before| <= k < |after| ==> after[k].account == account)
  }

  lemma ExtendsTransitive(a: seq<Bill>, b: seq<Bill>, c: seq<Bill>, account: nat)
    requires Extends(a, b, account) && Extends(b, c, account)
    ensures Extends(a, c, account)
  {
    forall k | 0 <= k < |a|
      ensures a[k].lines <= c[k].lines
    {
      assert a[k].lines <= b[k].lines <= c[k].lines;
    }
  }

  lemma StepExtends(p: Progress, account: nat, options: Options, isFee: bool,
                    entry: Option<Result<BillLine, PeriodError>>)
    requires Consistent(p)
    requires p.current.Some? ==> p.bills[p.current.value].account == account
    ensures Extends(p.bills, Step(p, account, options, isFee, entry).bills, account)
  {
    var r := Step(p, account, options, isFee, entry);
    if p.failure.Some? {
      assert Extends(p.bills, p.bills, account);
    } else {
      var (bills, current, listed) := Claim(p, account, options, isFee);
      if r.bills != bills {
        ExtendsTransitive(p.bills, bills, r.bills, account);
      }
    }
  }

  /**
   * `create_bills` closes no bill, changes no bill's kind or account,
   * only appends lines, leaves other accounts' bills alone and creates
   * bills for the account only.
   */
  lemma {:induction false} RunExtends(bills: seq<Bill>, account: nat, options: Options, lines: seq<Line>)
    requires LinesValid(lines)
    ensures Extends(bills, Run(bills, account, options, lines).bills, account)
  {
    if lines == [] {
      assert Extends(bills, bills, account);
    } else {
      var q := Run(bills, account, options, lines[..|lines| - 1]);
      var last := lines[|lines| - 1];
      RunExtends(bills, account, options, lines[..|lines| - 1]);
      StepExtends(q, account, options, last.order.service.isFee, Entry(last));
      ExtendsTransitive(bills, q.bills, Run(bills, account, options, lines).bills, account);
    }
  }

  /** Every bill listed is a ProForma. */
  predicate AllProForma(p: Progress)
    requires Consistent(p)
  {
    forall k :: 0 <= k < |p.listed| ==> p.bills[p.listed[k]].kind == ProForma
  }

  /** In proforma mode every bill listed is a ProForma, fee lines included. */
  lemma {:induction false} RunProForma(bills: seq<Bill>, account: nat, options: Options, lines: seq<Line>)
    requires LinesValid(lines) && options.proforma
    ensures AllProForma(Run(bills, account, options, lines))
  {
    if lines != [] {
      var q := Run(bills, account, options, lines[..|lines| - 1]);
      var last := lines[|lines| - 1];
      RunProForma(bills, account, options, lines[..|lines| - 1]);
      StepProForma(q, account, options, last.order.service.isFee, Entry(last));
    }
  }

  lemma StepProForma(p: Progress, account: nat, options: Options, isFee: bool,
                     entry: Option<Result<BillLine, PeriodError>>)
    requires Consistent(p) && options.proforma
    requires p.current.Some? ==> p.bills[p.current.value].account == account
    requires AllProForma(p)
    ensures AllProForma(Step(p, account, options, isFee, entry))
  {
    var r := Step(p, account, options, isFee, entry);
    if p.failure.None? {
      StepExtends(p, account, options, isFee, entry);
      StepListsKind(p, account, options, isFee, entry);
      forall k | 0 <= k < |r.listed|
        ensures r.bills[r.listed[k]].kind == ProForma
      {
        if k < |p.listed| {
          assert r.listed[k] == p.listed[k];
        }
      }
    }
  }

  /** A step lists either nothing new, or the current bill, whose kind fits the line. */
  lemma StepListsKind(p: Progress, account: nat, options: Options, isFee: bool,
                      entry: Option<Result<BillLine, PeriodError>>)
    requires Consistent(p) && p.failure.None?
    requires p.current.Some? ==> p.bills[p.current.value].account == account
    ensures var r := Step(p, account, options, isFee, entry);
      || r.listed == p.listed
      || (&& r.listed == p.listed + [r.current.value]
          && r.bills[r.current.value].kind == KindFor(options, isFee))
  {
    var (bills, c, listed) := Claim(p, account, options, isFee);
    var r := Step(p, account, options, isFee, entry);
    assert r.listed == listed && r.current == Some(c);
    assert r.bills[c].kind == bills[c].kind;
  }

  function FeeCount(lines: seq<Line>): nat
  {
    if lines == [] then 0
    else FeeCount(lines[..|lines| - 1]) + if lines[|lines| - 1].order.service.isFee then 1 else 0
  }

  /**
   * A run that completes lists one bill for each fee line, and one more
   * when the first line is not a fee: no lines list no bill.
   */
  lemma {:induction false} RunListedCount(bills: seq<Bill>, account: nat, options: Options, lines: seq<Line>)
    requires LinesValid(lines) && Run(bills, account, options, lines).failure.None?
    ensures |Run(bills, account, options, lines).listed|
            == FeeCount(lines) + if lines != [] && !lines[0].order.service.isFee then 1 else 0
  {
    if lines != [] {
      var init := lines[..|lines| - 1];
      var q := Run(bills, account, options, init);
      var last := lines[|lines| - 1];
      assert q.failure.None?;
      RunListedCount(bills, account, options, init);
      StepListedCount(q, account, options, last.order.service.isFee, Entry(last));
      if init != [] {
        assert init[0] == lines[0];
      }
    }
  }

  /** A step that starts without failure lists one more bill exactly when its line needs one. */
  lemma StepListedCount(p: Progress, account: nat, options: Options, isFee: bool,
                        entry: Option<Result<BillLine, PeriodError>>)
    requires Consistent(p) && p.failure.None?
    requires p.current.Some? ==> p.bills[p.current.value].account == account
    ensures |Step(p, account, options, isFee, entry).listed|
            == |p.listed| + if p.current.None? || isFee then 1 else 0
  {
    StepAttaches(p, account, options, isFee, entry);
  }

  /** The store of bills, which `create_bills` grows. */
  class BillStore {
    var bills: seq<Bill>

    constructor (bills: seq<Bill>)
      ensures this.bills == bills
    {
      this.bills := bills;
    }

    /** The bill a line that needs one gets, created here if need be. */
    method OpenBill(account: nat, options: Options, isFee: bool) returns (index: nat)
      modifies this
      ensures (bills, index) == Open(old(bills), account, options, isFee)
    {
      if options.proforma {
        if options.newOpen {
          bills := bills + [Bill(ProForma, account, options.openByDefault, [])];
          index := |bills| - 1;
        } else {
          var last := LastOpen(bills, account, ProForma);
          if last.None? {
            bills := bills + [Bill(ProForma, account, true, [])];
            index := |bills| - 1;
          } else {
            index := last.value;
          }
        }
      } else if isFee {
        bills := bills + [Bill(Fee, account, options.openByDefault, [])];
        index := |bills| - 1;
      } else {
        if options.newOpen {
          bills := bills + [Bill(Invoice, account, options.openByDefault, [])];
          index := |bills| - 1;
        } else {
          var last := LastOpen(bills, account, Invoice);
          if last.None? {
            bills := bills + [Bill(Invoice, account, true, [])];
            index := |bills| - 1;
          } else {
            index := last.value;
          }
        }
      }
    }

    /** The body of the loop of `create_bills`, for one line. */
    method AddLine(account: nat, options: Options, line: Line, bill: Option<nat>, listed: seq<nat>)
      returns (nextBill: Option<nat>, nextListed: seq<nat>, failure: Option<PeriodError>)
      requires line.Valid() && Consistent(Progress(bills, bill, listed, None))
      requires bill.Some? ==> bills[bill.value].account == account
      modifies this
      ensures Progress(bills, nextBill, nextListed, failure)
              == Step(Progress(old(bills), bill, listed, None), account, options,
                      line.order.service.isFee, Entry(line))
    {
      nextBill, nextListed, failure := bill, listed, None;
      var service := line.order.service;
      if bill.None? || service.isFee {
        var index := OpenBill(account, options, service.isFee);
        nextBill := Some(index);
        nextListed := listed + [index];
      }
      var quantity := line.metric * line.size;
      if quantity != 0 {
        var description := LineDescription(line);
        if description.Err? {
          failure := Some(description.error);
          return;
        }
        var billLine := NewBillLine(line, description.value);
        var b := bills[nextBill.value];
        bills := bills[nextBill.value := b.(lines := b.lines + [billLine])];
      }
    }

    /** The `bill.lines.create(...)` call and its sublines. */
    method NewBillLine(line: Line, description: string) returns (billLine: BillLine)
      ensures billLine == LineOf(line, description)
    {
      var service := line.order.service;
      var verbose := VerboseQuantity(line.metric, line.size);
      var sublines := CreateSublines(line.discounts);
      assert sublines == LineOf(line, description).sublines;
      billLine := BillLine(service.nominalPrice, line.metric * line.size, verbose, line.subtotal,
                           service.tax, description, line.order.id, line.order.oldBilledOn,
                           line.order.oldBilledUntil, sublines);
    }

    /**
     * `create_bills`: the bills listed, in order, and the error that
     * stopped the loop, if any; the store holds every bill and bill line
     * created before it.
     */
    method CreateBills(account: nat, lines: seq<Line>, options: Options)
      returns (listed: seq<nat>, failure: Option<PeriodError>)
      requires LinesValid(lines)
      modifies this
      ensures var p := Run(old(bills), account, options, lines);
        bills == p.bills && listed == p.listed && failure == p.failure
    {
      ghost var start := bills;
      var bill: Option<nat> := None;
      listed := [];
      failure := None;
      for i := 0 to |lines|
        invariant failure.None?
        invariant Progress(bills, bill, listed, None) == Run(start, account, options, lines[..i])
      {
        ghost var prefix := lines[..i + 1];
        assert prefix[..i] == lines[..i] && prefix[i] == lines[i];
        assert LinesValid(prefix);
        ghost var next := Step(Run(start, account, options, lines[..i]), account, options,
                               lines[i].order.service.isFee, Entry(lines[i]));
        assert Run(start, account, options, prefix) == next;
        bill, listed, failure := AddLine(account, options, lines[i], bill, listed);
        assert Progress(bills, bill, listed, failure) == next;
        if failure.Some? {
          RunStaysFailed(start, account, options, lines, i + 1);
          assert Run(start, account, options, lines) == Progress(bills, bill, listed, failure);
          return;
        }
      }
      assert lines[..|lines|] == lines;
    }
  }

  /** Once a line has failed, the later lines change nothing. */
  lemma {:induction false} RunStaysFailed(bills: seq<Bill>, account: nat, options: Options,
                                          lines: seq<Line>, k: nat)
    requires LinesValid(lines) && k <= |lines|
    requires Run(bills, account, options, lines[..k]).failure.Some?
    ensures Run(bills, account, options, lines) == Run(bills, account, options, lines[..k])
    decreases |lines|
  {
    if k == |lines| {
      assert lines[..k] == lines;
    } else {
      var init := lines[..|lines| - 1];
      assert init[..k] == lines[..k];
      RunStaysFailed(bills, account, options, init, k);
    }
  }
}
