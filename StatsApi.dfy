/**
 * `GET /api/stats` of the Flask backend: counts, fraud rate, the mixed sample of
 * recent transactions and the per-payment-method breakdown of the dataset.
 * Reading the CSV is an input; the random sampling and shuffling are
 * nondeterministic choices.
 */
module StatsApi {
  import opened Wrappers
  import opened TextUtil
  import opened FilterEngine

  /** One row of the generated dataset, with the columns the endpoint reads. */
  datatype DataRow = DataRow(
    transactionId: nat,
    userId: nat,
    amount: real,
    category: string,
    paymentMethod: string,
    isFraud: bool)

  /** An entry of `recentTransactions`; the random confidence and age text are not modelled. */
  datatype RecentEntry = RecentEntry(
    id: string,
    amount: real,
    status: string,
    user: string,
    category: string,
    paymentMethod: string)

  datatype PaymentStat = PaymentStat(paymentMethod: string, total: nat, fraud: nat, fraudRate: real)

  datatype Stats = Stats(
    totalTransactions: nat,
    fraudDetected: nat,
    legitimateTransactions: int,
    totalSaved: real,
    fraudRate: real,
    avgTransactionAmount: real,
    recentTransactions: seq<RecentEntry>,
    paymentMethodStats: seq<PaymentStat>)

  datatype StatsReply = StatsOk(stats: Stats) | StatsError(status: nat, error: string)

  function FraudRows(rows: seq<DataRow>): seq<DataRow>
  {
    Keep(rows, (r: DataRow) => r.isFraud)
  }

  function LegitRows(rows: seq<DataRow>): seq<DataRow>
  {
    Keep(rows, (r: DataRow) => !r.isFraud)
  }

  /** The `amount` column summed. */
  function AmountSum(rows: seq<DataRow>): real
    decreases |rows|
  {
    if rows == [] then 0.0 else AmountSum(rows[..|rows| - 1]) + rows[|rows| - 1].amount
  }

  function Min(a: nat, b: nat): nat
  {
    if a < b then a else b
  }

  /** `fraud / total * 100`, and 0 for an empty group. */
  function Rate(fraud: nat, total: nat): (r: real)
    ensures fraud <= total ==> 0.0 <= r <= 100.0
  {
    assert total > 0 && fraud <= total ==> fraud as real / total as real <= 1.0;
    if total > 0 then (fraud as real / total as real) * 100.0 else 0.0
  }

  /** A rate of a part of a group lies between 0 and 100. */
  lemma RateBounds(fraud: nat, total: nat)
    requires fraud <= total
    ensures 0.0 <= Rate(fraud, total) <= 100.0
    ensures Rate(fraud, total) == 100.0 <==> total > 0 && fraud == total
    ensures Rate(fraud, total) == 0.0 <==> fraud == 0
  {
    if total > 0 {
      assert fraud as real / total as real <= 1.0;
    }
  }

  /** The recent-transaction record of a sampled row. */
  function Entry(row: DataRow, status: string): RecentEntry
  {
    RecentEntry(
      "TXN" + ZeroPad(row.transactionId, 4),
      row.amount,
      status,
      "user_" + DecimalText(row.userId) + "@email.com",
      row.category,
      row.paymentMethod)
  }

  function Entries(rows: seq<DataRow>, status: string): (r: seq<RecentEntry>)
    ensures |r| == |rows|
    ensures forall i :: 0 <= i < |rows| ==> r[i] == Entry(rows[i], status)
    decreases |rows|
  {
    if rows == [] then [] else Entries(rows[..|rows| - 1], status) + [Entry(rows[|rows| - 1], status)]
  }

  /** `df['payment_method'].unique()`: each method once, in order of first appearance. */
  function UniqueMethods(rows: seq<DataRow>): (r: seq<string>)
    ensures forall i, j :: 0 <= i < j < |r| ==> r[i] != r[j]
    ensures forall m :: m in r <==> exists i :: 0 <= i < |rows| && rows[i].paymentMethod == m
    decreases |rows|
  {
    if rows == [] then []
    else
      var init := rows[..|rows| - 1];
      var m := rows[|rows| - 1].paymentMethod;
      assert forall i :: 0 <= i < |init| ==> init[i] == rows[i];
      if m in UniqueMethods(init) then UniqueMethods(init) else UniqueMethods(init) + [m]
  }

  function MethodRows(rows: seq<DataRow>, m: string): seq<DataRow>
  {
    Keep(rows, (r: DataRow) => r.paymentMethod == m)
  }

  /**
   * The breakdown entry of one payment method: its fraud count never exceeds
   * its total, its rate lies in 0..100, and its total is positive exactly
   * when some row uses the method.
   */
  function StatOf(rows: seq<DataRow>, m: string): (s: PaymentStat)
    ensures s.paymentMethod == m
    ensures s.fraud <= s.total && 0.0 <= s.fraudRate <= 100.0
    ensures s.total > 0 <==> exists i :: 0 <= i < |rows| && rows[i].paymentMethod == m
  {
    KeepEmptyIff(rows, (r: DataRow) => r.paymentMethod == m);
    var group := MethodRows(rows, m);
    var fraud := |FraudRows(group)|;
    PaymentStat(m, |group|, fraud, Rate(fraud, |group|))
  }

  /** A prefix of a sequence is a sub-multiset of it. */
  lemma PrefixSubMultiset<T>(xs: seq<T>, n: nat)
    requires n <= |xs|
    ensures multiset(xs[..n]) <= multiset(xs)
  {
    assert xs == xs[..n] + xs[n..];
  }

  /** The records built from one sample, in sample order. */
  method BuildEntries(sample: seq<DataRow>, status: string) returns (entries: seq<RecentEntry>)
    ensures entries == Entries(sample, status)
  {
    entries := [];
    for i := 0 to |sample|
      invariant entries == Entries(sample[..i], status)
    {
      assert sample[..i + 1][..i] == sample[..i];
      entries := entries + [Entry(sample[i], status)];
    }
    assert sample[..|sample|] == sample;
  }

  /** `df.sample(n=n)`: some `n` distinct rows of the frame, in some order. */
  method Sample(rows: seq<DataRow>, n: nat) returns (sample: seq<DataRow>)
    requires n <= |rows|
    ensures |sample| == n && multiset(sample) <= multiset(rows)
  {
    PrefixSubMultiset(rows, n);
    sample :| |sample| == n && multiset(sample) <= multiset(rows);
  }

  /** `np.random.shuffle`: the same records in some order. */
  method Shuffle(xs: seq<RecentEntry>) returns (ys: seq<RecentEntry>)
    ensures multiset(ys) == multiset(xs) && |ys| == |xs|
  {
    ys :| multiset(ys) == multiset(xs);
    assert |multiset(ys)| == |multiset(xs)|;
  }

  /** Every record built from a sample comes from a row of the sampled frame. */
  lemma EntriesFromSample(sample: seq<DataRow>, rows: seq<DataRow>, status: string, e: RecentEntry)
    requires multiset(sample) <= multiset(rows)
    requires e in Entries(sample, status)
    ensures exists r :: r in rows && e == Entry(r, status)
  {
    var i :| 0 <= i < |sample| && Entries(sample, status)[i] == e;
    assert sample[i] in multiset(rows);
  }

  /** The records of the shown transactions that carry the given status. */
  function WithStatus(recent: seq<RecentEntry>, status: string): seq<RecentEntry>
  {
    Keep(recent, (e: RecentEntry) => e.status == status)
  }

  /**
   * `recent` holds, in some order, the records of `fs` marked "fraud" and of
   * `ls` marked "legitimate", where `fs` is min(3, #fraud) distinct fraud rows
   * and `ls` is min(3, #legitimate) distinct legitimate rows.
   */
  ghost predicate MixedSample(recent: seq<RecentEntry>, fs: seq<DataRow>, ls: seq<DataRow>,
                              fraudRows: seq<DataRow>, legitRows: seq<DataRow>)
  {
    && |fs| == Min(3, |fraudRows|) && multiset(fs) <= multiset(fraudRows)
    && |ls| == Min(3, |legitRows|) && multiset(ls) <= multiset(legitRows)
    && multiset(recent) == multiset(Entries(fs, "fraud") + Entries(ls, "legitimate"))
  }

  /** The records built from a sample all carry the sample's status. */
  lemma EntriesStatus(rows: seq<DataRow>, status: string, other: string)
    requires other != status
    ensures WithStatus(Entries(rows, status), status) == Entries(rows, status)
    ensures WithStatus(Entries(rows, status), other) == []
  {
    var es := Entries(rows, status);
    KeepAll(es, (e: RecentEntry) => e.status == status);
    KeepNone(es, (e: RecentEntry) => e.status == other);
  }

  lemma WithStatusPermuted(a: seq<RecentEntry>, b: seq<RecentEntry>, status: string)
    requires multiset(a) == multiset(b)
    ensures |WithStatus(a, status)| == |WithStatus(b, status)|
  {
    KeepPermuted(a, b, (e: RecentEntry) => e.status == status);
  }

  lemma WithStatusAppend(a: seq<RecentEntry>, b: seq<RecentEntry>, status: string)
    ensures WithStatus(a + b, status) == WithStatus(a, status) + WithStatus(b, status)
  {
    KeepAppend(a, b, (e: RecentEntry) => e.status == status);
  }

  /**
   * A mixed sample shows exactly min(3, #fraud) records marked "fraud" and
   * min(3, #legitimate) marked "legitimate", and nothing else.
   */
  lemma MixedSampleCounts(recent: seq<RecentEntry>, fs: seq<DataRow>, ls: seq<DataRow>,
                          fraudRows: seq<DataRow>, legitRows: seq<DataRow>)
    requires MixedSample(recent, fs, ls, fraudRows, legitRows)
    ensures |recent| == Min(3, |fraudRows|) + Min(3, |legitRows|)
    ensures |WithStatus(recent, "fraud")| == Min(3, |fraudRows|)
    ensures |WithStatus(recent, "legitimate")| == Min(3, |legitRows|)
  {
    var fe, le := Entries(fs, "fraud"), Entries(ls, "legitimate");
    assert |multiset(recent)| == |multiset(fe + le)|;
    EntriesStatus(fs, "fraud", "legitimate");
    EntriesStatus(ls, "legitimate", "fraud");
    WithStatusPermuted(recent, fe + le, "fraud");
    WithStatusPermuted(recent, fe + le, "legitimate");
    WithStatusAppend(fe, le, "fraud");
    WithStatusAppend(fe, le, "legitimate");
  }

  /** Every record of a mixed sample comes from a row of its own kind. */
  lemma MixedSampleOrigins(recent: seq<RecentEntry>, fs: seq<DataRow>, ls: seq<DataRow>,
                           fraudRows: seq<DataRow>, legitRows: seq<DataRow>)
    requires MixedSample(recent, fs, ls, fraudRows, legitRows)
    ensures forall e :: e in recent ==>
      (exists r :: r in fraudRows && e == Entry(r, "fraud"))
      || (exists r :: r in legitRows && e == Entry(r, "legitimate"))
  {
    var fe, le := Entries(fs, "fraud"), Entries(ls, "legitimate");
    forall e | e in recent
      ensures (exists r :: r in fraudRows && e == Entry(r, "fraud"))
        || (exists r :: r in legitRows && e == Entry(r, "legitimate"))
    {
      assert e in multiset(fe + le);
      if e in fe {
        EntriesFromSample(fs, fraudRows, "fraud", e);
      } else {
        EntriesFromSample(ls, legitRows, "legitimate", e);
      }
    }
  }

  /**
   * The recent transactions: up to three sampled fraud rows and up to three
   * legitimate ones, as records, shuffled, then the first six kept.
   */
  method SampleRecent(fraudRows: seq<DataRow>, legitRows: seq<DataRow>) returns (recent: seq<RecentEntry>)
    ensures exists fs, ls :: MixedSample(recent, fs, ls, fraudRows, legitRows)
    ensures |recent| == Min(3, |fraudRows|) + Min(3, |legitRows|)
    ensures |WithStatus(recent, "fraud")| == Min(3, |fraudRows|)
    ensures |WithStatus(recent, "legitimate")| == Min(3, |legitRows|)
  {
    var fraudSample := Sample(fraudRows, Min(3, |fraudRows|));
    var legitSample := Sample(legitRows, Min(3, |legitRows|));
    var fraudEntries := BuildEntries(fraudSample, "fraud");
    var legitEntries := BuildEntries(legitSample, "legitimate");
    var shuffled := Shuffle(fraudEntries + legitEntries);
    recent := shuffled[..Min(6, |shuffled|)];
    assert recent == shuffled;
    assert MixedSample(recent, fraudSample, legitSample, fraudRows, legitRows);
    MixedSampleCounts(recent, fraudSample, legitSample, fraudRows, legitRows);
  }

  /** The loop over the unique payment methods, one breakdown entry each. */
  method PaymentBreakdown(rows: seq<DataRow>) returns (paymentStats: seq<PaymentStat>)
    ensures |paymentStats| == |UniqueMethods(rows)|
    ensures forall j :: 0 <= j < |UniqueMethods(rows)| ==> paymentStats[j] == StatOf(rows, UniqueMethods(rows)[j])
  {
    var methods := UniqueMethods(rows);
    paymentStats := [];
    for i := 0 to |methods|
      invariant |paymentStats| == i
      invariant forall j :: 0 <= j < i ==> paymentStats[j] == StatOf(rows, methods[j])
    {
      var group := MethodRows(rows, methods[i]);
      var methodFraud := |FraudRows(group)|;
      var methodTotal := |group|;
      var rate := if methodTotal > 0 then (methodFraud as real / methodTotal as real) * 100.0 else 0.0;
      paymentStats := paymentStats + [PaymentStat(methods[i], methodTotal, methodFraud, rate)];
    }
  }

  /**
   * `get_stats` on the dataset read from disk (or the error reading it raised):
   * the counts, the rate (a division by zero on an empty dataset), up to three
   * fraud and three legitimate sampled records in some order, and one breakdown
   * entry per payment method in order of first appearance.
   */
  method GetStats(dataset: Result<seq<DataRow>>) returns (reply: StatsReply)
    ensures dataset.Err? ==> reply == StatsError(500, dataset.error)
    ensures dataset.Ok? && |dataset.value| == 0 ==> reply == StatsError(500, "division by zero")
    ensures dataset.Ok? && |dataset.value| > 0 ==>
      var rows := dataset.value;
      && reply.StatsOk?
      && reply.stats.totalTransactions == |rows|
      && reply.stats.fraudDetected == |FraudRows(rows)|
      && reply.stats.legitimateTransactions == |rows| - |FraudRows(rows)|
      && reply.stats.totalSaved == AmountSum(FraudRows(rows))
      && reply.stats.fraudRate == Rate(|FraudRows(rows)|, |rows|)
      && reply.stats.avgTransactionAmount == AmountSum(rows) / |rows| as real
      && (exists fs, ls :: MixedSample(reply.stats.recentTransactions, fs, ls, FraudRows(rows), LegitRows(rows)))
      && |reply.stats.recentTransactions| == Min(3, |FraudRows(rows)|) + Min(3, |LegitRows(rows)|)
      && |WithStatus(reply.stats.recentTransactions, "fraud")| == Min(3, |FraudRows(rows)|)
      && |WithStatus(reply.stats.recentTransactions, "legitimate")| == Min(3, |LegitRows(rows)|)
      && |reply.stats.paymentMethodStats| == |UniqueMethods(rows)|
      && (forall j :: 0 <= j < |UniqueMethods(rows)| ==>
            reply.stats.paymentMethodStats[j] == StatOf(rows, UniqueMethods(rows)[j]))
  {
    if dataset.Err? {
      return StatsError(500, dataset.error);
    }
    var rows := dataset.value;
    var total := |rows|;
    var fraudRows := FraudRows(rows);
    var fraudDetected := |fraudRows|;
    var legitimate := total - fraudDetected;
    var totalSaved := AmountSum(fraudRows);
    if total == 0 {
      return StatsError(500, "division by zero");
    }
    var fraudRate := (fraudDetected as real / total as real) * 100.0;
    var recent := SampleRecent(fraudRows, LegitRows(rows));
    var avg := AmountSum(rows) / total as real;
    var paymentStats := PaymentBreakdown(rows);
    return StatsOk(Stats(total, fraudDetected, legitimate, totalSaved, fraudRate, avg, recent, paymentStats));
  }

  /** The legitimate count is the number of non-fraud rows, never negative. */
  lemma LegitimateIsComplement(rows: seq<DataRow>)
    ensures |rows| - |FraudRows(rows)| == |LegitRows(rows)|
  {
    KeepComplement(rows, (r: DataRow) => r.isFraud, (r: DataRow) => !r.isFraud);
  }

  /** Of a dataset, the fraud rate lies between 0 and 100. */
  lemma FraudRateBounds(rows: seq<DataRow>)
    ensures 0.0 <= Rate(|FraudRows(rows)|, |rows|) <= 100.0
  {
    RateBounds(|FraudRows(rows)|, |rows|);
  }

  /**
   * Every payment method listed has at least one row, so the zero-total branch is
   * never taken, and its rate lies between 0 and 100.
   */
  lemma PaymentStatBounds(rows: seq<DataRow>, m: string)
    requires m in UniqueMethods(rows)
    ensures var s := StatOf(rows, m);
      s.total > 0 && s.fraud <= s.total && 0.0 <= s.fraudRate <= 100.0
  {
    var i :| 0 <= i < |rows| && rows[i].paymentMethod == m;
    KeepMembership(rows, (r: DataRow) => r.paymentMethod == m, rows[i]);
    var group := MethodRows(rows, m);
    RateBounds(|FraudRows(group)|, |group|);
  }

  /** At most three of each kind are sampled, so keeping the first six drops nothing. */
  lemma RecentNeverTruncated(fraud: nat, legit: nat)
    ensures Min(3, fraud) + Min(3, legit) <= 6
  {
  }
}
