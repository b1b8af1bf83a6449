/** create_job: the text of one alignment script, as the sequence of strings
    written to `<name>_align.sh`. */
module JobScript {
  import opened Text
  import opened Config

  /** How the generation ended. `IndexError` is the single-end loop reading a
      filename past the end of the list, which aborts create_job after the
      earlier writes have reached the file. */
  datatype Status = Completed | IndexError

  /** The file create_job opens and everything it wrote there, in order. */
  datatype Job = Job(fileName: string, writes: seq<string>, status: Status)

  /** One planned STAR run: its input files, its 1-based replicate number, and
      whether it is chained to the next run with `&&`. */
  datatype Invocation = Invocation(inputs: seq<string>, displayRep: nat, chained: bool)

  const ChainSuffix: string := " &&\n\n"
  const EndSuffix: string := "\n\n"

  /** The number of loop iterations: Python's `range` is empty for a count <= 0. */
  function Replicates(reps: int): nat
  {
    if reps < 0 then 0 else reps
  }

  function JobFileName(name: string): string
  {
    name + "_align.sh"
  }

  function HeaderLines(header: seq<string>): seq<string>
  {
    seq(|header|, i requires 0 <= i < |header| => header[i] + "\n")
  }

  /** The fixed block of shell assignments that follows the header. */
  function FixedLines(sample: SampleConfig, options: GlobalOptions): seq<string>
  {
    [ "DATE_STAMP=$(date +%Y%m%d_%H%M)\n",
      "RUN_STAMP=${DATE_STAMP}_" + sample.name + "\n",
      "THREAD_NUM=" + IntToString(options.threadNumber) + "\n",
      "GENOME_DIR=" + options.genomeLocation + "\n",
      "GTF_FILE=" + options.gtfLocation + "\n",
      "OUT_DIR=" + options.outputDirectory + "/\"$RUN_STAMP\"/" + "\n",
      "mkdir -p $OUT_DIR\n",
      "\n" ]
  }

  function Preamble(sample: SampleConfig, options: GlobalOptions): seq<string>
  {
    HeaderLines(options.header) + FixedLines(sample, options)
  }

  /** The output prefix of a replicate; it carries the tag `_R<displayRep>_`. */
  function OutputPrefix(displayRep: nat): string
  {
    "\"$OUT_DIR\"\"$RUN_STAMP\"_R" + NatToString(displayRep) + "_"
  }

  /** The fixed flags of a STAR call up to its input files. */
  const InputFlags: string :=
    " --runThreadN $THREAD_NUM --genomeDir $GENOME_DIR --readFilesCommand zcat --readFilesIn "

  const PrefixFlag: string := " --outFileNamePrefix "

  /** The fixed flags of a STAR call after its output prefix. */
  const OutputFlags: string :=
    " --outSAMtype BAM SortedByCoordinate --quantMode TranscriptomeSAM GeneCounts --genomeLoad NoSharedMemory --sjdbGTFfile $GTF_FILE"

  /** A STAR command line without its line ending. */
  function Command(starLocation: string, inputs: string, displayRep: nat): string
  {
    starLocation + InputFlags + inputs + PrefixFlag + OutputPrefix(displayRep) + OutputFlags
  }

  function Render(starLocation: string, inv: Invocation): string
  {
    Command(starLocation, Join(" ", inv.inputs), inv.displayRep)
      + (if inv.chained then ChainSuffix else EndSuffix)
  }

  function RenderAll(starLocation: string, plan: seq<Invocation>): seq<string>
  {
    seq(|plan|, k requires 0 <= k < |plan| => Render(starLocation, plan[k]))
  }

  /** Paired-end runs: run k reads the k-th pair of names, and every run but
      the last is chained. */
  function PairedPlan(filenames: seq<string>, n: nat): seq<Invocation>
  {
    seq(n, k requires 0 <= k < n => Invocation(Slice(filenames, 2 * k, 2 * k + 2), k + 1, k + 1 < n))
  }

  /** Single-end runs: run k reads the k-th name; only the runs whose name
      exists are written, and chaining is decided against the full count n. */
  function SinglePlan(filenames: seq<string>, n: nat): seq<Invocation>
  {
    var m := if n <= |filenames| then n else |filenames|;
    seq(m, k requires 0 <= k < m => Invocation([filenames[k]], k + 1, k + 1 < n))
  }

  function Plan(sample: SampleConfig): seq<Invocation>
  {
    if sample.pairedEnd then PairedPlan(sample.filenames, Replicates(sample.reps))
    else SinglePlan(sample.filenames, Replicates(sample.reps))
  }

  /** Rendering one more planned run appends exactly its line. */
  lemma RenderAllSnoc(starLocation: string, plan: seq<Invocation>, k: nat)
    requires k < |plan|
    ensures RenderAll(starLocation, plan[..k + 1])
         == RenderAll(starLocation, plan[..k]) + [Render(starLocation, plan[k])]
  {
    assert plan[..k + 1] == plan[..k] + [plan[k]];
  }

  /** The line of the k-th paired-end run, as the paired-end loop writes it. */
  lemma PairedLine(star: string, filenames: seq<string>, n: nat, k: nat)
    requires k < n
    ensures Render(star, PairedPlan(filenames, n)[k])
         == Command(star, Join(" ", Slice(filenames, 2 * k, 2 * k + 2)), k + 1)
            + (if 2 * k == n * 2 - 2 then "\n\n" else " &&\n\n")
  {
    var inv := PairedPlan(filenames, n)[k];
    assert inv == Invocation(Slice(filenames, 2 * k, 2 * k + 2), k + 1, k + 1 < n);
    assert inv.chained <==> 2 * k != n * 2 - 2;
  }

  /** The line of the k-th single-end run, as the single-end loop writes it. */
  lemma SingleLine(star: string, filenames: seq<string>, n: nat, k: nat)
    requires k < n && k < |filenames|
    ensures Render(star, SinglePlan(filenames, n)[k])
         == Command(star, filenames[k], k + 1) + (if k == n - 1 then "\n\n" else " &&\n\n")
  {
    JoinSmall(" ", [filenames[k]]);
  }

  /** One iteration of the paired-end loop extends the written runs by one. */
  lemma PairedStep(star: string, filenames: seq<string>, n: nat, k: nat,
                   written: seq<string>, out: seq<string>, inputs: string, line: string)
    requires k < n
    requires out == written + RenderAll(star, PairedPlan(filenames, n)[..k])
    requires inputs == Join(" ", Slice(filenames, 2 * k, 2 * k + 2))
    requires line == Command(star, inputs, k + 1) + (if 2 * k == n * 2 - 2 then "\n\n" else " &&\n\n")
    ensures out + [line] == written + RenderAll(star, PairedPlan(filenames, n)[..k + 1])
  {
    PairedLine(star, filenames, n, k);
    RenderAllSnoc(star, PairedPlan(filenames, n), k);
  }

  /** One iteration of the single-end loop extends the written runs by one. */
  lemma SingleStep(star: string, filenames: seq<string>, n: nat, k: nat,
                   written: seq<string>, out: seq<string>, line: string)
    requires k < n && k < |filenames|
    requires out == written + RenderAll(star, SinglePlan(filenames, n)[..k])
    requires line == Command(star, filenames[k], k + 1) + (if k == n - 1 then "\n\n" else " &&\n\n")
    ensures out + [line] == written + RenderAll(star, SinglePlan(filenames, n)[..k + 1])
  {
    SingleLine(star, filenames, n, k);
    RenderAllSnoc(star, SinglePlan(filenames, n), k);
  }

  /** What create_job leaves behind: the preamble, then one line per planned run. */
  function JobSpec(sample: SampleConfig, options: GlobalOptions): Job
  {
    var status := if !sample.pairedEnd && Replicates(sample.reps) > |sample.filenames|
                  then IndexError else Completed;
    Job(JobFileName(sample.name),
        Preamble(sample, options) + RenderAll(options.starLocation, Plan(sample)),
        status)
  }

  /** The paired-end loop: `rep` steps by two through the list, the last run
      is recognised by `rep == reps*2-2`, and `displayRep` counts from 1. */
  method WritePairedRuns(star: string, filenames: seq<string>, reps: int, written: seq<string>)
    returns (out: seq<string>)
    ensures out == written + RenderAll(star, PairedPlan(filenames, Replicates(reps)))
  {
    ghost var n := Replicates(reps);
    ghost var plan := PairedPlan(filenames, n);
    out := written;
    var displayRep: nat := 1;
    var rep := 0;
    ghost var k := 0;
    while rep < reps * 2
      invariant 0 <= k <= n && rep == 2 * k
      invariant displayRep == k + 1
      invariant out == written + RenderAll(star, plan[..k])
    {
      var inputs := Join(" ", Slice(filenames, rep, rep + 2));
      var line;
      if rep == reps * 2 - 2 {
        line := Command(star, inputs, displayRep) + "\n\n";
      } else {
        line := Command(star, inputs, displayRep) + " &&\n\n";
      }
      PairedStep(star, filenames, n, k, written, out, inputs, line);
      out := out + [line];
      displayRep := displayRep + 1;
      rep := rep + 2;
      k := k + 1;
    }
    assert plan[..k] == plan;
  }

  /** The single-end loop: run `rep` reads `filenames[rep]`; an index past the
      end stops the generation with the runs so far already written. */
  method WriteSingleRuns(star: string, filenames: seq<string>, reps: int, written: seq<string>)
    returns (out: seq<string>, status: Status)
    ensures out == written + RenderAll(star, SinglePlan(filenames, Replicates(reps)))
    ensures status == if Replicates(reps) > |filenames| then IndexError else Completed
  {
    ghost var n := Replicates(reps);
    ghost var plan := SinglePlan(filenames, n);
    out := written;
    var displayRep: nat := 1;
    var rep := 0;
    while rep < reps
      invariant 0 <= rep <= n && rep <= |plan|
      invariant displayRep == rep + 1
      invariant out == written + RenderAll(star, plan[..rep])
    {
      if rep >= |filenames| {
        assert plan[..rep] == plan;
        return out, IndexError;
      }
      var line;
      if rep == reps - 1 {
        line := Command(star, filenames[rep], displayRep) + "\n\n";
      } else {
        line := Command(star, filenames[rep], displayRep) + " &&\n\n";
      }
      SingleStep(star, filenames, n, rep, written, out, line);
      out := out + [line];
      displayRep := displayRep + 1;
      rep := rep + 1;
    }
    assert plan[..rep] == plan;
    status := Completed;
  }

  /** The generator itself: the header loop, the fixed writes, then the
      replicate loop of the sample's mode. */
  method CreateJob(sample: Sample, options: GlobalOptions) returns (job: Job)
    ensures job == JobSpec(sample.Value(), options)
  {
    var fileName := sample.name + "_align.sh";
    var out: seq<string> := [];

    var i := 0;
    while i < |options.header|
      invariant 0 <= i <= |options.header|
      invariant out == HeaderLines(options.header[..i])
    {
      out := out + [options.header[i] + "\n"];
      i := i + 1;
    }
    assert options.header[..i] == options.header;

    out := out + ["DATE_STAMP=$(date +%Y%m%d_%H%M)\n"];
    out := out + ["RUN_STAMP=${DATE_STAMP}_" + sample.name + "\n"];
    out := out + ["THREAD_NUM=" + IntToString(options.threadNumber) + "\n"];
    out := out + ["GENOME_DIR=" + options.genomeLocation + "\n"];
    out := out + ["GTF_FILE=" + options.gtfLocation + "\n"];
    out := out + ["OUT_DIR=" + options.outputDirectory + "/\"$RUN_STAMP\"/" + "\n"];
    out := out + ["mkdir -p $OUT_DIR\n"];
    out := out + ["\n"];
    assert out == Preamble(sample.Value(), options);

    if sample.pairedEnd {
      out := WritePairedRuns(options.starLocation, sample.filenames, sample.reps, out);
      job := Job(fileName, out, Completed);
    } else {
      var status;
      out, status := WriteSingleRuns(options.starLocation, sample.filenames, sample.reps, out);
      job := Job(fileName, out, status);
    }
  }
}
