# FASTQ quality analysis: the read-accumulation loop

This project models the core of a script that summarises a FASTQ file of
sequencing reads. The script pulls reads from the parser one at a time, in
file order. For each read it appends the sequence length to `read_lengths`.
It appends the read's average Phred quality (the sum of its per-base
qualities divided by their number) to `quality_scores`. It then increments
`count`, emits a progress notice whenever `count` is a multiple of 10000, and
stops once `count` reaches 50000. Afterwards it prints the number of reads,
the mean read length and the mean of the per-read average qualities.

- `stats.dfy` (module `Stats`): exact sums, the arithmetic mean standing in
  for `np.mean`, and the fact that a mean lies between the smallest and the
  largest sample.
- `analyze_fastq.dfy` (module `AnalyzeFastq`): the `Record` handed over by
  the parser, the loop as the method `Accumulate` over two growable
  sequences and a counter, the progress cadence `ProgressCounts`, the
  50000-read cap `MaxRecords`, and the printed `Summarize`.

The parser's output is an input `seq<Record>`. Each `Record` holds the
sequence length `seqLen` and the decoded Phred values `quals`. Progress
notices are returned as the sequence of counts at which they were emitted.
All division and averaging is exact `real` arithmetic.

A read with no quality values makes `sum(qualities) / len(qualities)` raise
`ZeroDivisionError`, and the script aborts. This is modelled as the outcome
`ZeroDivisionError(at)`, not as a precondition. It is reported exactly when
such a read lies among the first `min(|records|, 50000)` reads. Reads after
the cap are never reached, so an empty one there does no harm.

The script does not keep running sums (it stores each read's length and
average quality in two lists), skip malformed records, keep running
variances, or classify the mean quality. The model follows the script: it
holds the per-read lengths and averages in the two lists, crashes rather
than skips, and computes only means.

## Model

| member | source | states |
|---|---|---|
| `AnalyzeFastq.Accumulate` | analyze_fastq.py:19-34 | The loop aborts with `ZeroDivisionError(k)` exactly when one of the first `min(|records|, 50000)` reads has no qualities; `k` is the first such read, and the notices emitted before the abort are those up to count `k`. Otherwise `count == min(|records|, 50000)`. In that case `count` never exceeds 50000, and it equals `|records|` when the input has at most 50000 reads. Each list then has exactly `count` entries. Entry `i` is the length, and the average quality, of input read `i`, in file order. The notices are `ProgressCounts(count)`. |
| `AnalyzeFastq.RecordsAfterCapUnread` | analyze_fastq.py:20-34 | With 50000 or more reads, appending further reads changes neither which finished result is correct nor where the loop aborts: reads after the cap are never read. |
| `AnalyzeFastq.AvgQuality` | analyze_fastq.py:24-26 | A read's average quality `sum(quals) / len(quals)` is the mean of its quality values. It lies between two of them, its lowest and its highest, so it is never negative. |
| `AnalyzeFastq.ProgressCounts` | analyze_fastq.py:28-30 | Every count at which a notice is emitted after `n` reads is a positive multiple of 10000 no larger than `n`. |
| `AnalyzeFastq.ProgressCountsClosedForm` | analyze_fastq.py:28-30 | After `n` reads, `n / 10000` notices have been emitted, and the `k`-th one is at count `(k + 1) * 10000`. |
| `AnalyzeFastq.ProgressCountsExactly` | analyze_fastq.py:28-30 | A count appears among the notices if and only if it is a positive multiple of 10000 no larger than `n`. The notices appear in strictly increasing order. |
| `AnalyzeFastq.ProgressAtCap` | analyze_fastq.py:28-34 | When the cap stops the loop, the notices are exactly 10000, 20000, 30000, 40000 and 50000. The one at 50000 is emitted before the break. |
| `AnalyzeFastq.Summarize` | analyze_fastq.py:37-39 | The summary reports `len(read_lengths)` reads. The mean length lies between the shortest and the longest listed length. The mean quality lies between the lowest and the highest listed per-read average. Both lists must be non-empty. |
| `AnalyzeFastq.RunSummaryAverages` | analyze_fastq.py:37-39 | For a finished run with `count > 0` reads and one list entry per read, the summary reports `count` reads. The average length is `sum(read_lengths) / count`, and the average quality is `sum(quality_scores) / count`. |
| `AnalyzeFastq.RunSummaryBounds` | analyze_fastq.py:37-39 | For a finished run with `count > 0`, the reported average length lies between the shortest and the longest processed read, and the reported average quality is never negative. |
| `AnalyzeFastq.FourReadSummary` | analyze_fastq.py:37-39 | Four reads with lengths 100, 95, 100, 80 and per-read averages 35, 28, 40, 15 give 4 reads, average length 93.75 and average quality 29.5. |
| `Stats.SumRealOfToReals` | analyze_fastq.py:38 | Summing the integer read lengths and then converting to a real gives the same total as converting each length and then summing. So `np.mean` over the integer list is the integer sum divided by the count. |
| `Stats.SumAtLeast` | analyze_fastq.py:38-39 | The exact sum taken inside `np.mean` of `n` values, each at least `lo`, is at least `n * lo`. |
| `Stats.SumAtMost` | analyze_fastq.py:38-39 | The exact sum taken inside `np.mean` of `n` values, each at most `hi`, is at most `n * hi`. |
| `Stats.Mean` | analyze_fastq.py:38-39 | `np.mean` of a non-empty list lies between two of its elements, the smallest and the largest. So the mean of non-negative samples is non-negative. |
| `Stats.ToReals` | analyze_fastq.py:38 | Converting a list of integers to reals keeps its length and converts each element in place. |

## Left out

- Parsing the FASTQ file and decoding Phred+33 qualities (`SeqIO.parse`, `letter_annotations["phred_quality"]`, lines 20 and 24) happen in Biopython, which is not part of this model. Its output is the input `seq<Record>`.
- The model's input is always a complete `seq<Record>`. The parser raises `ValueError` on a malformed record partway through the file, which aborts the loop after the notices emitted so far. That abort is not modelled.
- The script never checks that `seqLen` equals the number of quality values, but the parser does: it rejects a record whose sequence and quality lines differ in length. `Record` does not require the equality, so it is more general than anything the parser produces. Under that equality, reaching `ZeroDivisionError` means exactly reaching a read of length zero.
- The hard-coded file name (line 10) and file-not-found handling are I/O and are not modelled.
- Console text and `:.2f` formatting (lines 15-16, 30, 37-39) are not modelled. The progress notices appear only as the sequence of counts at which they are emitted.
- The plots and the saved image (lines 42-54) are output only, and are not modelled.
- Float rounding in `/` and `np.mean` is replaced by exact `real` arithmetic.
- Summarize: requires both lists to be non-empty. It does not model the NaN that `np.mean` returns for an empty list (a run over an empty input).
