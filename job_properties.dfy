/** What a generated alignment script looks like, stated over JobSpec: the
    order of its parts, how many runs it holds, which files each run reads,
    how runs are numbered and how they are chained. */
module JobProperties {
  import opened Text
  import opened Config
  import opened JobScript

  function Min(a: int, b: int): int
  {
    if a <= b then a else b
  }

  /** The input files of each planned run, in run order. */
  function Inputs(plan: seq<Invocation>): seq<seq<string>>
  {
    seq(|plan|, k requires 0 <= k < |plan| => plan[k].inputs)
  }

  /** The number of runs create_job writes before it returns or aborts. */
  function WrittenRuns(sample: SampleConfig): nat
  {
    if sample.pairedEnd then Replicates(sample.reps)
    else Min(Replicates(sample.reps), |sample.filenames|)
  }

  /** The script opens with the header lines, each on its own line, followed by
      the fixed block of assignments and a blank line. */
  lemma PreambleLayout(sample: SampleConfig, options: GlobalOptions)
    ensures var w := JobSpec(sample, options).writes; var h := |options.header|;
      |w| >= h + 8 &&
      (forall i :: 0 <= i < h ==> w[i] == options.header[i] + "\n") &&
      w[h..h + 8] == [
        "DATE_STAMP=$(date +%Y%m%d_%H%M)\n",
        "RUN_STAMP=${DATE_STAMP}_" + sample.name + "\n",
        "THREAD_NUM=" + IntToString(options.threadNumber) + "\n",
        "GENOME_DIR=" + options.genomeLocation + "\n",
        "GTF_FILE=" + options.gtfLocation + "\n",
        "OUT_DIR=" + options.outputDirectory + "/\"$RUN_STAMP\"/" + "\n",
        "mkdir -p $OUT_DIR\n",
        "\n"]
  {
    var w := JobSpec(sample, options).writes;
    var h := |options.header|;
    assert w[..h + 8] == Preamble(sample, options);
    assert w[h..h + 8] == Preamble(sample, options)[h..];
  }

  /** One run line per replicate in paired-end mode and in single-end mode while
      names last; no run at all for a count <= 0; the single-end loop aborts
      exactly when the list has fewer names than replicates. */
  lemma RunCount(sample: SampleConfig, options: GlobalOptions)
    ensures |JobSpec(sample, options).writes| == |options.header| + 8 + WrittenRuns(sample)
    ensures sample.reps <= 0 ==> |JobSpec(sample, options).writes| == |options.header| + 8
    ensures (sample.pairedEnd || sample.reps <= |sample.filenames|) ==> WrittenRuns(sample) == Replicates(sample.reps)
    ensures JobSpec(sample, options).status == IndexError
        <==> !sample.pairedEnd && sample.reps > |sample.filenames|
  {
  }

  /** Every run line is the rendered command of its planned run. */
  lemma RunLine(sample: SampleConfig, options: GlobalOptions, k: nat)
    requires k < WrittenRuns(sample)
    ensures |Plan(sample)| == WrittenRuns(sample)
    ensures var w := JobSpec(sample, options).writes; var inv := Plan(sample)[k];
      |w| == |options.header| + 8 + WrittenRuns(sample) &&
      w[|options.header| + 8 + k]
        == Command(options.starLocation, Join(" ", inv.inputs), k + 1)
           + (if k + 1 < Replicates(sample.reps) then ChainSuffix else EndSuffix)
  {
    RunAt(sample, options, k);
    var plan := Plan(sample);
    assert RenderAll(options.starLocation, plan)[k] == Render(options.starLocation, plan[k]);
    assert plan[k].displayRep == k + 1 && plan[k].chained == (k + 1 < Replicates(sample.reps));
  }

  /** The writes after the preamble are the rendered runs, one each. */
  lemma RunAt(sample: SampleConfig, options: GlobalOptions, k: nat)
    requires k < WrittenRuns(sample)
    ensures |Plan(sample)| == WrittenRuns(sample)
    ensures var w := JobSpec(sample, options).writes;
      |w| == |options.header| + 8 + WrittenRuns(sample) &&
      w[|options.header| + 8 + k] == RenderAll(options.starLocation, Plan(sample))[k]
  {
    var pre := Preamble(sample, options);
    var runs := RenderAll(options.starLocation, Plan(sample));
    assert JobSpec(sample, options).writes == pre + runs;
    assert |pre| == |options.header| + 8;
    assert |runs| == WrittenRuns(sample);
  }

  /** Paired-end runs read consecutive, disjoint pairs: concatenated in run
      order they give exactly the first 2n names (or all names, if fewer). */
  lemma {:induction false} PairedPlanCovers(filenames: seq<string>, n: nat)
    ensures Concat(Inputs(PairedPlan(filenames, n))) == filenames[..Min(2 * n, |filenames|)]
  {
    if n > 0 {
      PairedPlanCovers(filenames, n - 1);
      var xs := Inputs(PairedPlan(filenames, n));
      assert xs[..n - 1] == Inputs(PairedPlan(filenames, n - 1));
      assert xs[n - 1] == Slice(filenames, 2 * (n - 1), 2 * n);
      PrefixThenSlice(filenames, 2 * (n - 1), 2 * n);
    }
  }

  /** A prefix followed by the slice that starts where it ends is a longer prefix. */
  lemma PrefixThenSlice(s: seq<string>, lo: nat, hi: nat)
    requires lo <= hi
    ensures s[..Min(lo, |s|)] + Slice(s, lo, hi) == s[..Min(hi, |s|)]
  {
    var l := Min(lo, |s|);
    var h := Min(hi, |s|);
    assert s[..h] == s[..l] + s[l..h];
  }

  /** With at least 2n names, run k reads exactly names 2k and 2k+1. */
  lemma PairedRunReadsPair(filenames: seq<string>, n: nat, k: nat)
    requires 2 * n <= |filenames| && k < n
    ensures PairedPlan(filenames, n)[k].inputs == [filenames[2 * k], filenames[2 * k + 1]]
  {
  }

  /** With fewer than 2n names the slice does not fail: the last run silently
      reads fewer than two names. */
  lemma ShortPairedListLastRun(filenames: seq<string>, n: nat)
    requires 0 < n && |filenames| < 2 * n
    ensures |PairedPlan(filenames, n)[n - 1].inputs| < 2
  {
  }

  /** Single-end runs read the names one by one, in order: concatenated they give
      the first n names (or all names, if fewer). */
  lemma {:induction false} SinglePlanCovers(filenames: seq<string>, n: nat)
    ensures Concat(Inputs(SinglePlan(filenames, n))) == filenames[..Min(n, |filenames|)]
  {
    var plan := SinglePlan(filenames, n);
    var m := |plan|;
    if m > 0 {
      var shorter := SinglePlan(filenames, m - 1);
      SinglePlanCovers(filenames, m - 1);
      assert Inputs(plan)[..m - 1] == Inputs(shorter);
      assert filenames[..m] == filenames[..m - 1] + [filenames[m - 1]];
    }
  }

  /** Two sequences that agree after removing the same front and back agree. */
  lemma StripFrame<T>(p: seq<T>, a: seq<T>, b: seq<T>, q: seq<T>)
    requires p + a + q == p + b + q
    ensures a == b
  {
    assert |a| == |b|;
    assert a == (p + a + q)[|p|..|p| + |a|];
    assert b == (p + b + q)[|p|..|p| + |b|];
  }

  /** Runs are numbered 1, 2, ... in order, and no two runs share an output prefix. */
  lemma OutputPrefixesDistinct(sample: SampleConfig, j: nat, k: nat)
    requires j < |Plan(sample)| && k < |Plan(sample)|
    ensures Plan(sample)[j].displayRep == j + 1
    ensures OutputPrefix(Plan(sample)[j].displayRep) == OutputPrefix(Plan(sample)[k].displayRep)
        <==> j == k
  {
    var plan := Plan(sample);
    assert plan[j].displayRep == j + 1 && plan[k].displayRep == k + 1;
    OutputPrefixInjective(j + 1, k + 1);
  }

  /** Different replicate numbers give different output prefixes. */
  lemma OutputPrefixInjective(a: nat, b: nat)
    ensures OutputPrefix(a) == OutputPrefix(b) <==> a == b
  {
    if OutputPrefix(a) == OutputPrefix(b) {
      StripFrame("\"$OUT_DIR\"\"$RUN_STAMP\"_R", NatToString(a), NatToString(b), "_");
      NatToStringInjective(a, b);
    }
  }

  /** A run line ends with ` &&` and a blank line exactly when it is chained. */
  lemma RenderChained(star: string, inv: Invocation)
    ensures EndsWith(Render(star, inv), ChainSuffix) <==> inv.chained
  {
    var c := Command(star, Join(" ", inv.inputs), inv.displayRep);
    assert OutputFlags[|OutputFlags| - 1] == 'E';
    assert c[|c| - 1] == 'E';
    var r := Render(star, inv);
    if inv.chained {
      assert r[|r| - |ChainSuffix|..] == ChainSuffix;
    } else {
      assert r == c + EndSuffix;
      assert r[|r| - 3] == 'E';
    }
  }

  /** In a completed script every run but the last is chained, and the last is not. */
  lemma OnlyLastRunUnchained(sample: SampleConfig, options: GlobalOptions)
    requires JobSpec(sample, options).status == Completed
    ensures var w := JobSpec(sample, options).writes; var n := Replicates(sample.reps);
      var runs := w[|options.header| + 8..];
      |w| == |options.header| + 8 + n && |runs| == n &&
      forall k :: 0 <= k < n ==> (EndsWith(runs[k], ChainSuffix) <==> k != n - 1)
  {
    var w := JobSpec(sample, options).writes;
    var runs := w[|options.header| + 8..];
    var n := Replicates(sample.reps);
    RunCount(sample, options);
    assert runs == RenderAll(options.starLocation, Plan(sample));
    forall k | 0 <= k < n
      ensures EndsWith(runs[k], ChainSuffix) <==> k != n - 1
    {
      RenderChained(options.starLocation, Plan(sample)[k]);
    }
  }

  /** A single-end script that aborts has all its written runs chained, so the
      file ends with a dangling ` &&`. */
  lemma AbortedRunsAllChained(sample: SampleConfig, options: GlobalOptions)
    requires JobSpec(sample, options).status == IndexError
    ensures var w := JobSpec(sample, options).writes;
      var runs := w[|options.header| + 8..];
      |w| == |options.header| + 8 + |sample.filenames| && |runs| == |sample.filenames| &&
      forall k :: 0 <= k < |runs| ==> EndsWith(runs[k], ChainSuffix)
  {
    var w := JobSpec(sample, options).writes;
    var runs := w[|options.header| + 8..];
    RunCount(sample, options);
    assert runs == RenderAll(options.starLocation, Plan(sample));
    forall k | 0 <= k < |runs|
      ensures EndsWith(runs[k], ChainSuffix)
    {
      RenderChained(options.starLocation, Plan(sample)[k]);
    }
  }

  /** Two samples with different names never write the same script file. */
  lemma JobFileNameInjective(a: string, b: string)
    ensures JobFileName(a) == JobFileName(b) <==> a == b
  {
    if JobFileName(a) == JobFileName(b) {
      assert a == JobFileName(a)[..|a|];
    }
  }

  /** The two-replicate paired-end sample `leaf_control`: two runs, the first on
      the `a` pair and chained, the second on the `b` pair and last. */
  lemma LeafControlExample(options: GlobalOptions)
    ensures var sample := SampleConfig("leaf_control", 2, ["a_R1", "a_R2", "b_R1", "b_R2"], true);
      var job := JobSpec(sample, options);
      job.fileName == "leaf_control_align.sh" &&
      job.status == Completed &&
      |job.writes| == |options.header| + 10 &&
      Plan(sample) == [Invocation(["a_R1", "a_R2"], 1, true), Invocation(["b_R1", "b_R2"], 2, false)]
  {
    var fs := ["a_R1", "a_R2", "b_R1", "b_R2"];
    assert Slice(fs, 0, 2) == ["a_R1", "a_R2"];
    assert Slice(fs, 2, 4) == ["b_R1", "b_R2"];
  }
}
