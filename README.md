# alignment_job_creator, modelled in Dafny

The program reads one global configuration and a configuration per RNA-seq
sample, and for each sample writes a shell script `<name>_align.sh` that runs
the STAR aligner once per replicate. This project models the part of
`generate_alignment_jobs.py` that decides what those scripts contain:

- `text.dfy` (module `Text`): the Python operations the generator leans on:
  slicing with clamped bounds, `' '.join` and `str()` of an integer.
- `config.dfy` (module `Config`): the `Sample` record (a class, since its
  setters replace fields in place), the `GlobalOptions` record (a datatype; it
  is never changed after construction), and the two loaders after the
  configuration parser has done its work: the loop that keeps the values of a
  section's (key, value) items in file order.
- `job_script.dfy` (module `JobScript`): `create_job`. The file is the sequence
  of strings written to it. `JobSpec` states that sequence outright (header
  lines, the fixed block of assignments, one line per planned run).
  `CreateJob` runs the source's loops: the header loop, the paired-end loop
  that steps by two and spots its last iteration with `rep == reps*2-2`, the
  single-end loop that indexes `filenames[rep]`, and the 1-based
  `display_rep` counter. It is proved to write exactly `JobSpec`.
- `job_properties.dfy` (module `JobProperties`): what every generated
  script satisfies. These lemmas cover the layout of the preamble, the number
  of run lines, which names each run reads, the run numbering, the distinct
  output prefixes, and the `&&` chaining.

`JobSpec` is a function of the sample and the options alone, so generating
the same sample twice writes the same script.

A STAR command line (`Command`) is the same concatenation as in the source:
the STAR path, the fixed flags up to `--readFilesIn`, the run's input names,
`--outFileNamePrefix`, the run's output prefix, and the fixed flags after it.
The fixed fragments are the constants `InputFlags`, `PrefixFlag` and
`OutputFlags`, with the source's text.

Facts about the code that the model keeps:

- Each header line is written followed by a newline.
- Paired-end run k takes the Python slice `filenames[2k:2k+2]`. A list shorter
  than `2*reps` therefore gives a run with one name or none, and the code does
  not fail.
- Any integer count of replicates is accepted, and a count of 0 or less writes
  no run line.
- In single-end mode the code fails with an index error when there are fewer
  names than replicates. By then it has already written the header, the fixed
  block and the earlier runs, and each of those runs ends with ` &&`. The model
  records this as `Job.status == IndexError` together with the writes made
  before the failure.

## Model

| member | source | states |
|---|---|---|
| `Text.Slice` | generate_alignment_jobs.py:143-147 | Python's `s[lo:hi]`: its length is the window clamped to the list, its elements are `s[lo+i]`, and inside the list it is the plain subsequence |
| `Text.Join` | generate_alignment_jobs.py:145-147 | `' '.join` of no names is empty; otherwise the joined text starts with the first name and ends with the last |
| `Text.JoinSmall` | generate_alignment_jobs.py:145-147 | `' '.join` of one name is the name, of two names is the names around one space, of none is empty |
| `Text.NatToString` | generate_alignment_jobs.py:145-148 | `str(display_rep)`: at least one character, all decimal digits, a leading `0` only for zero |
| `Text.IntToString` | generate_alignment_jobs.py:128 | `str(thread_number)`: a minus sign exactly for negative numbers, digits otherwise |
| `Text.IntToStringDigits` | generate_alignment_jobs.py:128 | reading back `str(thread_number)` gives the number: for a negative number, the digits after the minus sign are those of its magnitude |
| `Text.ParseNatToString` | generate_alignment_jobs.py:145-148 | reading the printed replicate number back gives the number |
| `Text.NatToStringInjective` | generate_alignment_jobs.py:145-148 | different replicate numbers print differently |
| `Config.Sample.constructor` | generate_alignment_jobs.py:30-34 | a new sample holds exactly the given name, count, filenames and mode |
| `Config.Sample.SetName` | generate_alignment_jobs.py:39-40 | replaces the name and nothing else |
| `Config.Sample.SetReps` | generate_alignment_jobs.py:45-46 | replaces the replicate count and nothing else |
| `Config.Sample.SetFilenames` | generate_alignment_jobs.py:51-52 | replaces the filename list and nothing else |
| `Config.ValuesAt` | generate_alignment_jobs.py:20-23 | the extracted list has one entry per item, and entry i is the value of item i |
| `Config.KeysIgnored` | generate_alignment_jobs.py:102-105 | sections with the same values in the same order give the same list whatever their keys |
| `Config.ExtractValues` | generate_alignment_jobs.py:21-23 | the append loop returns as many values as there are items, each the value of the item at the same position |
| `Config.LoadSample` | generate_alignment_jobs.py:17-25 | the sample takes the `name` read from the file, not the lookup name, and its filenames are the section's values in order |
| `Config.LoadGlobalOptions` | generate_alignment_jobs.py:97-110 | the options carry the parsed settings, with the header lines in file order |
| `JobScript.PairedLine` | generate_alignment_jobs.py:144-147 | the line the paired-end loop writes at `rep = 2k` (chained unless `rep == reps*2-2`) is the rendering of planned run k |
| `JobScript.SingleLine` | generate_alignment_jobs.py:151-154 | the line the single-end loop writes at `rep = k` (chained unless `rep == reps-1`) is the rendering of planned run k |
| `JobScript.WritePairedRuns` | generate_alignment_jobs.py:141-148 | the paired-end loop appends exactly the rendered paired-end plan |
| `JobScript.WriteSingleRuns` | generate_alignment_jobs.py:149-155 | the single-end loop appends the rendered single-end plan, and it aborts exactly when the list has fewer names than replicates |
| `JobScript.CreateJob` | generate_alignment_jobs.py:112-157 | the script file is `<name>_align.sh` and the writes are exactly those of the specification |
| `JobProperties.PreambleLayout` | generate_alignment_jobs.py:117-138 | the header lines come first, each followed by a newline, then the eight fixed lines in order |
| `JobProperties.RunCount` | generate_alignment_jobs.py:141-155 | the script holds the preamble and one run line per replicate (paired-end) or per replicate while names last (single-end); none for a count of 0 or less; the single-end loop aborts exactly when there are fewer names than replicates |
| `JobProperties.RunAt` | generate_alignment_jobs.py:141-155 | after the header and the eight fixed lines, write k is the rendering of planned run k |
| `JobProperties.RunLine` | generate_alignment_jobs.py:145-154 | the run line at position k is STAR with its flags, the run's input names joined by spaces and the tag of replicate k+1, chained unless it is the last replicate |
| `JobProperties.PairedPlanCovers` | generate_alignment_jobs.py:143-147 | the paired-end runs read disjoint consecutive pairs that together are exactly the first `2*reps` names (all names if fewer) |
| `JobProperties.PairedRunReadsPair` | generate_alignment_jobs.py:145-147 | with enough names, run k reads names 2k and 2k+1 |
| `JobProperties.ShortPairedListLastRun` | generate_alignment_jobs.py:145-147 | with fewer than `2*reps` names, the last run reads fewer than two names and nothing fails |
| `JobProperties.SinglePlanCovers` | generate_alignment_jobs.py:150-154 | the single-end runs read the names one at a time, in order, and together read the first `reps` names (all names if fewer) |
| `JobProperties.OutputPrefixesDistinct` | generate_alignment_jobs.py:141-155 | run k carries the display number k+1, and two runs share an output prefix only if they are the same run |
| `JobProperties.OutputPrefixInjective` | generate_alignment_jobs.py:145-154 | two replicate numbers give the same output prefix exactly when they are equal |
| `JobProperties.RenderChained` | generate_alignment_jobs.py:144-147 | a run line ends with ` &&` and a blank line exactly when it is chained |
| `JobProperties.OnlyLastRunUnchained` | generate_alignment_jobs.py:143-154 | in a completed script there are exactly `reps` run lines, and every one except the last ends with ` &&` |
| `JobProperties.AbortedRunsAllChained` | generate_alignment_jobs.py:150-154 | when the single-end loop aborts, each run line it wrote (one per name) ends with ` &&` |
| `JobProperties.JobFileNameInjective` | generate_alignment_jobs.py:115 | samples with different names write different script files |
| `JobProperties.LeafControlExample` | generate_alignment_jobs.py:112-157 | a paired-end sample with two replicates and four names gives two runs: the first on the first pair and chained, the second on the second pair and last |

## Left out

- Reading configuration files: configparser, section and key lookup, `getboolean` and `int(...)`. The loaders take the parsed values as parameters, and a section is a sequence of (key, value) pairs. The file paths built from the prefixes are not modelled either.
- Real file I/O: `open`, `f.write`, overwriting an existing file, and I/O errors. The script is the sequence of strings written, and a write is an append to that sequence.
- `print`: the progress message `print("Creating job for", ...)` at the start of `create_job` (generate_alignment_jobs.py:113) and the error messages when a configuration file is missing. They go to the console, not into the script.
- The `sys.exit(1)` paths when a configuration file is missing. These are process control around the loaders.
- `main`, with its hardcoded configuration prefix and sample names. It is glue code.
- The getters of `Sample` and `GlobalOptions`. They are reads of the record's fields.
- What the generated shell does when it runs (`date`, `mkdir`, STAR). The generator only emits text.
- The lookup name given to `get_sample_by_name`. It only names the file to read, so `LoadSample` takes it and does not use it.
