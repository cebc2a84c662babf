/** The thirty-day revenue trend, keyed the way the source keys it (the string form of
    `toISOString().split('T')`) and keyed by calendar day. */
module RevenueTrend {
  import opened Seqs
  import opened Calendar
  import opened Records
  import opened Text

  /** Neither of the two characters the trend keys turn on. */
  predicate Plain(s: string) {
    forall i :: 0 <= i < |s| ==> s[i] != 'T' && s[i] != ','
  }

  lemma PlainConcat(a: string, b: string)
    requires Plain(a) && Plain(b)
    ensures Plain(a + b)
  {
    assert forall i :: |a| <= i < |a + b| ==> (a + b)[i] == b[i - |a|];
  }

  /** `String(s).padStart(width, '0')`. */
  function ZeroPad(s: string, width: nat): (r: string)
    ensures |r| == if |s| >= width then |s| else width
    ensures r[|r| - |s|..] == s
    ensures forall i :: 0 <= i < |r| - |s| ==> r[i] == '0'
  {
    if |s| >= width then s else seq(width - |s|, _ => '0') + s
  }

  lemma ZeroPadPlain(s: string, width: nat)
    requires Plain(s)
    ensures Plain(ZeroPad(s, width))
  {
    var r := ZeroPad(s, width);
    forall i | 0 <= i < |r|
      ensures r[i] != 'T' && r[i] != ','
    {
      if i >= |r| - |s| {
        assert r[i] == r[|r| - |s|..][i - (|r| - |s|)];
      }
    }
  }

  /** A number written in decimal and padded with zeros to `width`. */
  function Field(n: int, width: nat): (s: string)
    ensures Plain(s)
  {
    ZeroPadPlain(IntToDecimal(n), width);
    ZeroPad(IntToDecimal(n), width)
  }

  /** `a`, a one-character separator, `b`. */
  function Glue(a: string, sep: char, b: string): (s: string)
    requires Plain(a) && Plain(b) && sep != 'T' && sep != ','
    ensures Plain(s)
  {
    PlainConcat(a, [sep]);
    PlainConcat(a + [sep], b);
    a + [sep] + b
  }

  /** `YYYY-MM-DD`, the date part of `toISOString()` and the form payment dates are stored in. */
  function IsoDate(d: Date): (s: string)
    ensures Plain(s)
  {
    Glue(Glue(Field(d.year, 4), '-', Field(d.month + 1, 2)), '-', Field(d.day, 2))
  }

  /** `HH:MM:SS.mmmZ`, the time part of `toISOString()`. */
  function IsoTime(t: TimeOfDay): (s: string)
    ensures Plain(s)
  {
    var hhmmss := Glue(Glue(Field(t / 3_600_000, 2), ':', Field(t / 60_000 % 60, 2)), ':', Field(t / 1000 % 60, 2));
    Glue(Glue(hhmmss, '.', Field(t % 1000, 3)), 'Z', "")
  }

  /** `toISOString()`. */
  function IsoTimestamp(m: Moment): string {
    IsoDate(m.date) + "T" + IsoTime(m.time)
  }

  /** The property-key form of `s.split('T')`: the pieces joined with commas. */
  function SplitOnTKey(s: string): string {
    Join(Split(s, 'T'), ',')
  }

  /** The day keys of the source: `new Date()` moved back by whole days, through
      `toISOString().split('T')`. */
  function AsWrittenDayKey(m: Moment): (k: string)
    ensures k == IsoDate(m.date) + "," + IsoTime(m.time)
    ensures ',' in k
  {
    SplitOnTKeyOfTimestamp(IsoDate(m.date), IsoTime(m.time));
    SplitOnTKey(IsoTimestamp(m))
  }

  lemma SplitOnTKeyOfTimestamp(date: string, time: string)
    requires Plain(date) && Plain(time)
    ensures SplitOnTKey(date + "T" + time) == date + "," + time
    ensures ',' in date + "," + time
  {
    assert 'T' !in date by {
      assert forall i :: 0 <= i < |date| ==> date[i] != 'T';
    }
    assert 'T' !in time by {
      assert forall i :: 0 <= i < |time| ==> time[i] != 'T';
    }
    SplitAtFirst(date, time, 'T');
    SplitNoSeparator(time, 'T');
    assert Split(date + "T" + time, 'T') == [date, time];
    assert [date, time][1..] == [time];
    assert Join([date, time], ',') == date + [','] + time;
    assert (date + "," + time)[|date|] == ',';
  }

  /** The payment keys of the source: the stored `YYYY-MM-DD` text through `split('T')`. */
  function AsWrittenPaymentKey(p: Payment): (k: string)
    ensures k == IsoDate(p.date)
    ensures ',' !in k
  {
    var date := IsoDate(p.date);
    assert 'T' !in date by {
      assert forall i :: 0 <= i < |date| ==> date[i] != 'T';
    }
    SplitNoSeparator(date, 'T');
    assert forall i :: 0 <= i < |date| ==> date[i] != ',';
    SplitOnTKey(date)
  }

  /** The corrected day key: the calendar day itself (what `split('T')[0]` names). */
  function DayKey(m: Moment): Date {
    m.date
  }

  /** One point of the chart. */
  datatype TrendPoint<K> = TrendPoint(key: K, day: Date, amount: int)

  /** The thirty days ending today, oldest first, each at the current time of day. */
  function TrendDays(now: Moment): (days: seq<Moment>)
    ensures |days| == 30
    ensures forall j :: 0 <= j < 30 ==>
      DayNumber(days[j].date) == DayNumber(now.date) - 29 + j && days[j].time == now.time
  {
    seq(30, j requires 0 <= j < 30 => TrendDay(now, j))
  }

  /** Day `j` of the window: `29 - j` days before today, at the current time of day. */
  function TrendDay(now: Moment, j: int): (m: Moment)
    requires 0 <= j < 30
    ensures DayNumber(m.date) == DayNumber(now.date) - 29 + j && m.time == now.time
  {
    Moment(DaysBefore(now.date, 29 - j), now.time)
  }

  /** The `forEach` over payments that adds each amount to its key's entry when the table
      has that key, and skips the payment otherwise. */
  function AddPayments<K(==)>(table: map<K, int>, payments: seq<Payment>, payKey: Payment -> K): (t: map<K, int>)
    ensures t.Keys == table.Keys
    ensures forall k :: k in t ==> t[k] == table[k] + SumWhere(payments, payKey, k, AmountOf)
    decreases |payments|
  {
    if |payments| == 0 then table
    else
      var t := AddPayments(table, payments[..|payments| - 1], payKey);
      var p := payments[|payments| - 1];
      var k := payKey(p);
      if k in t then t[k := t[k] + p.amount] else t
  }

  /** The trend for any pair of key functions: a zeroed entry per day key, then the
      payments added in. */
  function Trend<K(==)>(payments: seq<Payment>, now: Moment, dayKey: Moment -> K, payKey: Payment -> K): (r: seq<TrendPoint<K>>)
    ensures |r| == 30
    ensures forall j :: 0 <= j < 30 ==> r[j].key == dayKey(TrendDays(now)[j]) && r[j].day == TrendDays(now)[j].date
    ensures forall j :: 0 <= j < 30 ==> r[j].amount == SumWhere(payments, payKey, r[j].key, AmountOf)
  {
    var days := TrendDays(now);
    var keys := seq(30, j requires 0 <= j < 30 => dayKey(days[j]));
    var filled := AddPayments(ZeroTable(keys), payments, payKey);
    seq(30, j requires 0 <= j < 30 => TrendPoint(keys[j], days[j].date, filled[keys[j]]))
  }

  /** `trend[key] = 0` for every day key. */
  function ZeroTable<K(==)>(keys: seq<K>): (t: map<K, int>)
    ensures forall i :: 0 <= i < |keys| ==> keys[i] in t
    ensures forall k :: k in t ==> t[k] == 0
  {
    map k | k in keys :: 0
  }

  /** `getRevenueTrend` as written. */
  function AsWrittenRevenueTrend(payments: seq<Payment>, now: Moment): (r: seq<TrendPoint<string>>)
    ensures |r| == 30
  {
    Trend(payments, now, AsWrittenDayKey, AsWrittenPaymentKey)
  }

  /** As written, no payment key ever equals a day key (only the day keys carry a comma),
      so every point of the chart is 0 whatever the payments. */
  lemma AsWrittenTrendIsFlat(payments: seq<Payment>, now: Moment)
    ensures forall j :: 0 <= j < 30 ==> AsWrittenRevenueTrend(payments, now)[j].amount == 0
  {
    var r := AsWrittenRevenueTrend(payments, now);
    forall j | 0 <= j < 30
      ensures r[j].amount == 0
    {
      forall i | 0 <= i < |payments|
        ensures AsWrittenPaymentKey(payments[i]) != r[j].key
      {
        assert ',' in r[j].key;
      }
      SumWhereAbsent(payments, AsWrittenPaymentKey, r[j].key, AmountOf);
    }
  }

  /** `getRevenueTrend` with matching keys: each of the last thirty days, oldest first, with
      the sum of the payments dated that day. */
  function GetRevenueTrend(payments: seq<Payment>, now: Moment): (r: seq<TrendPoint<Date>>)
    ensures |r| == 30
    ensures forall j :: 0 <= j < 30 ==> DayNumber(r[j].day) == DayNumber(now.date) - 29 + j
    ensures forall j :: 0 <= j < 30 ==> r[j].amount == SumWhere(payments, PaymentDay, r[j].day, AmountOf)
  {
    Trend(payments, now, DayKey, PaymentDay)
  }

  /** A payment dated within the window raises exactly its day's point; one dated outside
      it changes nothing. */
  lemma NewPaymentLandsOnItsDay(payments: seq<Payment>, p: Payment, now: Moment)
    ensures var before := GetRevenueTrend(payments, now);
      var after := GetRevenueTrend(payments + [p], now);
      forall j :: 0 <= j < 30 ==>
        after[j].amount == before[j].amount + (if after[j].day == p.date then p.amount else 0)
  {
    var before := GetRevenueTrend(payments, now);
    var after := GetRevenueTrend(payments + [p], now);
    forall j | 0 <= j < 30
      ensures after[j].amount == before[j].amount + (if after[j].day == p.date then p.amount else 0)
    {
      SumWhereConcat(payments, [p], PaymentDay, after[j].day, AmountOf);
      assert [p][..0] == [];
      assert DayNumber(after[j].day) == DayNumber(before[j].day);
      DayNumberInjective(after[j].day, before[j].day);
    }
  }

  /** A payment dated before the window or after today appears on no point. */
  lemma PaymentOutsideWindowIgnored(payments: seq<Payment>, p: Payment, now: Moment)
    requires DayNumber(p.date) < DayNumber(now.date) - 29 || DayNumber(p.date) > DayNumber(now.date)
    ensures GetRevenueTrend(payments + [p], now) == GetRevenueTrend(payments, now)
  {
    NewPaymentLandsOnItsDay(payments, p, now);
    var before := GetRevenueTrend(payments, now);
    var after := GetRevenueTrend(payments + [p], now);
    forall j | 0 <= j < 30
      ensures after[j] == before[j]
    {
      assert after[j].day != p.date;
    }
  }
}
