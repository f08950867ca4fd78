/** The read-accumulation loop of the FASTQ quality analysis script and the
    summary it prints: reads are pulled in file order, each contributes its
    length and its average Phred quality, a progress notice is emitted every
    10000 reads, and the loop stops after 50000 reads. */
module AnalyzeFastq {
  import opened Stats

  /** One read as handed over by the FASTQ parser: the length of its base
      sequence and its decoded per-base Phred qualities. */
  datatype Record = Record(seqLen: nat, quals: seq<nat>)

  /** A progress notice is emitted whenever the count is a multiple of this. */
  const ProgressInterval: nat := 10000

  /** The loop stops once this many reads have been processed. */
  const MaxRecords: nat := 50000

  /** How the loop ends. `ZeroDivisionError(at)`: the read at index `at` has
      no quality values, so its average divides by zero and the script
      aborts. `Finished`: the two lists and the counter after the loop. */
  datatype Outcome =
    | Finished(readLengths: seq<nat>, qualityScores: seq<real>, count: nat)
    | ZeroDivisionError(at: nat)

  /** The summary printed after the loop. */
  datatype Summary = Summary(totalReads: nat, avgLength: real, avgQuality: real)

  /** Number of reads the loop pulls from the input when nothing aborts it. */
  function Reached(records: seq<Record>): nat
  {
    if |records| < MaxRecords then |records| else MaxRecords
  }

  /** Average Phred quality of one read: the sum of its qualities divided by
      how many there are. This is the mean of its quality values, so it lies
      between the lowest and the highest of them and is never negative. */
  function AvgQuality(quals: seq<nat>): (r: real)
    requires |quals| > 0
    ensures r == Mean(ToReals(quals))
    ensures exists i, j ::
              0 <= i < |quals| && 0 <= j < |quals| &&
              quals[i] as real <= r <= quals[j] as real
    ensures 0.0 <= r
  {
    var xs := ToReals(quals);
    SumRealOfToReals(quals);
    var r := (SumNat(quals) as real) / (|quals| as real);
    assert r == Mean(xs);
    r
  }

  /** The counts at which a notice has been emitted once `n` reads have been
      processed, in the order they were emitted. */
  function ProgressCounts(n: nat): (r: seq<nat>)
    ensures forall c :: c in r ==> 0 < c <= n && c % ProgressInterval == 0
  {
    if n == 0 then []
    else ProgressCounts(n - 1) + (if n % ProgressInterval == 0 then [n] else [])
  }

  /** Closed form of the notices: the k-th one (from 0) is at count
      (k + 1) * 10000, and there is one per full 10000 reads. */
  lemma {:induction false} ProgressCountsClosedForm(n: nat)
    ensures |ProgressCounts(n)| == n / ProgressInterval
    ensures forall k :: 0 <= k < |ProgressCounts(n)| ==>
      ProgressCounts(n)[k] == (k + 1) * ProgressInterval
  {
    if n > 0 {
      ProgressCountsClosedForm(n - 1);
    }
  }

  /** Notices are emitted exactly at the positive multiples of 10000 up to
      `n`, in strictly increasing order. */
  lemma ProgressCountsExactly(n: nat)
    ensures forall c :: c in ProgressCounts(n) <==> 0 < c <= n && c % ProgressInterval == 0
    ensures forall i, j :: 0 <= i < j < |ProgressCounts(n)| ==>
      ProgressCounts(n)[i] < ProgressCounts(n)[j]
  {
    ProgressCountsClosedForm(n);
    var p := ProgressCounts(n);
    forall c | 0 < c <= n && c % ProgressInterval == 0
      ensures c in p
    {
      var k := c / ProgressInterval - 1;
      assert 0 <= k < |p|;
      assert p[k] == c;
    }
  }

  /** When the cap is hit, the last notice is the one at 50000, emitted
      before the loop breaks. */
  lemma ProgressAtCap()
    ensures ProgressCounts(MaxRecords) == [10000, 20000, 30000, 40000, 50000]
  {
    ProgressCountsClosedForm(MaxRecords);
  }

  /** The read at index `k` is the first one the loop meets with no quality
      values. */
  predicate CrashesAt(records: seq<Record>, k: nat)
  {
    && k < Reached(records)
    && |records[k].quals| == 0
    && forall j :: 0 <= j < k ==> |records[j].quals| > 0
  }

  /** `o` holds one entry per processed read in each list, the lengths and
      average qualities of the first `Reached(records)` reads in file order,
      and the count of those reads. */
  predicate Tallied(records: seq<Record>, o: Outcome)
  {
    && o.Finished?
    && o.count == Reached(records)
    && |o.readLengths| == o.count
    && |o.qualityScores| == o.count
    && forall i :: 0 <= i < o.count ==>
         && |records[i].quals| > 0
         && o.readLengths[i] == records[i].seqLen
         && o.qualityScores[i] == AvgQuality(records[i].quals)
  }

  /** The loop of analyze_fastq.py, lines 19-34, over the parser's output
      `records`. It returns how the loop ended and the counts at which it
      emitted a progress notice. */
  method Accumulate(records: seq<Record>) returns (o: Outcome, notices: seq<nat>)
    ensures o.ZeroDivisionError? <==>
      exists k :: 0 <= k < Reached(records) && |records[k].quals| == 0
    ensures o.ZeroDivisionError? ==> CrashesAt(records, o.at) && notices == ProgressCounts(o.at)
    ensures o.Finished? ==> Tallied(records, o) && notices == ProgressCounts(o.count)
    ensures o.Finished? ==> o.count <= MaxRecords
    ensures o.Finished? && |records| <= MaxRecords ==> o.count == |records|
  {
    var readLengths: seq<nat> := [];
    var qualityScores: seq<real> := [];
    var count: nat := 0;
    notices := [];
    var i := 0;
    while i < |records|
      invariant count == i <= |records|
      invariant count < MaxRecords
      invariant |readLengths| == count && |qualityScores| == count
      invariant forall j :: 0 <= j < count ==>
        && |records[j].quals| > 0
        && readLengths[j] == records[j].seqLen
        && qualityScores[j] == AvgQuality(records[j].quals)
      invariant notices == ProgressCounts(count)
    {
      var record := records[i];
      readLengths := readLengths + [record.seqLen];
      var qualities := record.quals;
      if |qualities| == 0 {
        o := ZeroDivisionError(i);
        return;
      }
      var avgQuality := (SumNat(qualities) as real) / (|qualities| as real);
      qualityScores := qualityScores + [avgQuality];
      count := count + 1;
      if count % ProgressInterval == 0 {
        notices := notices + [count];
      }
      if count >= MaxRecords {
        break;
      }
      i := i + 1;
    }
    o := Finished(readLengths, qualityScores, count);
  }

  /** Everything the loop's result depends on lies in the first 50000 reads
      once there are that many: what follows them is never read. */
  lemma RecordsAfterCapUnread(records: seq<Record>, extra: seq<Record>, o: Outcome, k: nat)
    requires |records| >= MaxRecords
    ensures Tallied(records + extra, o) <==> Tallied(records, o)
    ensures CrashesAt(records + extra, k) <==> CrashesAt(records, k)
  {
    assert Reached(records + extra) == Reached(records);
    assert forall i :: 0 <= i < Reached(records) ==> (records + extra)[i] == records[i];
  }

  /** The summary of analyze_fastq.py, lines 37-39: the number of reads,
      `np.mean` of the read lengths and `np.mean` of the per-read average
      qualities. `np.mean` of an empty list
      is NaN, so both lists must be non-empty. */
  function Summarize(readLengths: seq<nat>, qualityScores: seq<real>): (s: Summary)
    requires |readLengths| > 0 && |qualityScores| > 0
    ensures s.totalReads == |readLengths|
    ensures exists i, j ::
              0 <= i < |readLengths| && 0 <= j < |readLengths| &&
              readLengths[i] as real <= s.avgLength <= readLengths[j] as real
    ensures exists i, j ::
              0 <= i < |qualityScores| && 0 <= j < |qualityScores| &&
              qualityScores[i] <= s.avgQuality <= qualityScores[j]
  {
    var lengths := ToReals(readLengths);
    Summary(|readLengths|, Mean(lengths), Mean(qualityScores))
  }

  /** For a finished run whose two lists hold one entry per counted read,
      and at least one read: the summary reports `count` reads, an average
      length of sum(read lengths) / count and an average quality of
      sum(per-read averages) / count. */
  lemma RunSummaryAverages(o: Outcome)
    requires o.Finished? && o.count > 0
    requires |o.readLengths| == o.count && |o.qualityScores| == o.count
    ensures Summarize(o.readLengths, o.qualityScores).totalReads == o.count
    ensures Summarize(o.readLengths, o.qualityScores).avgLength ==
      (SumNat(o.readLengths) as real) / (o.count as real)
    ensures Summarize(o.readLengths, o.qualityScores).avgQuality ==
      SumReal(o.qualityScores) / (o.count as real)
  {
    SumRealOfToReals(o.readLengths);
  }

  /** For a finished run over at least one read: the reported average length
      lies between the shortest and the longest processed read, and the
      reported average quality is never negative. */
  lemma RunSummaryBounds(records: seq<Record>, o: Outcome)
    requires Tallied(records, o) && o.count > 0
    ensures 0.0 <= Summarize(o.readLengths, o.qualityScores).avgQuality
    ensures exists i, j ::
              0 <= i < o.count && 0 <= j < o.count &&
              records[i].seqLen as real <= Summarize(o.readLengths, o.qualityScores).avgLength
              <= records[j].seqLen as real
  {
    var s := Summarize(o.readLengths, o.qualityScores);
    var i, j :| 0 <= i < o.count && 0 <= j < o.count &&
      o.readLengths[i] as real <= s.avgLength <= o.readLengths[j] as real;
    assert records[i].seqLen == o.readLengths[i] && records[j].seqLen == o.readLengths[j];
    var a :| 0 <= a < o.count && o.qualityScores[a] <= s.avgQuality;
    assert 0.0 <= AvgQuality(records[a].quals) == o.qualityScores[a];
  }

  /** A worked run of four reads with lengths 100, 95, 100 and 80 and
      per-read average qualities 35, 28, 40 and 15: the summary reports 4
      reads, an average length of 93.75 and an average quality of 29.5. */
  lemma FourReadSummary()
    ensures Summarize([100, 95, 100, 80], [35.0, 28.0, 40.0, 15.0]) == Summary(4, 93.75, 29.5)
  {
    var lengths: seq<nat> := [100, 95, 100, 80];
    var quals := [35.0, 28.0, 40.0, 15.0];
    assert SumNat(lengths) == 375 by {
      assert lengths[1..] == [95, 100, 80];
      assert lengths[1..][1..] == [100, 80];
      assert lengths[1..][1..][1..] == [80];
    }
    assert SumReal(quals) == 118.0 by {
      assert quals[1..] == [28.0, 40.0, 15.0];
      assert quals[1..][1..] == [40.0, 15.0];
      assert quals[1..][1..][1..] == [15.0];
    }
    RunSummaryAverages(Finished(lengths, quals, 4));
  }
}
