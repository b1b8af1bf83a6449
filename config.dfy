/** The records the generator consumes and the two loaders that build them
    from already-parsed configuration sections. */
module Config {

  /** The value of a sample: everything create_job reads from a `Sample`. */
  datatype SampleConfig = SampleConfig(
    name: string,
    reps: int,
    filenames: seq<string>,
    pairedEnd: bool)

  /** A sample record. The source's setters replace one field in place. */
  class Sample {
    var name: string
    var reps: int
    var filenames: seq<string>
    var pairedEnd: bool

    constructor (name: string, reps: int, filenames: seq<string>, pairedEnd: bool)
      ensures Value() == SampleConfig(name, reps, filenames, pairedEnd)
    {
      this.name := name;
      this.reps := reps;
      this.filenames := filenames;
      this.pairedEnd := pairedEnd;
    }

    function Value(): SampleConfig
      reads this
    {
      SampleConfig(name, reps, filenames, pairedEnd)
    }

    method SetName(name: string)
      modifies this
      ensures Value() == old(Value()).(name := name)
    {
      this.name := name;
    }

    method SetReps(reps: int)
      modifies this
      ensures Value() == old(Value()).(reps := reps)
    {
      this.reps := reps;
    }

    method SetFilenames(filenames: seq<string>)
      modifies this
      ensures Value() == old(Value()).(filenames := filenames)
    {
      this.filenames := filenames;
    }
  }

  /** Options shared by every sample; built once and never changed. */
  datatype GlobalOptions = GlobalOptions(
    genomeLocation: string,
    gtfLocation: string,
    outputDirectory: string,
    sampleConfigurationDirectory: string,
    header: seq<string>,
    threadNumber: int,
    starLocation: string)

  /** The values of a configuration section's (key, value) items, in file order. */
  function Values(items: seq<(string, string)>): (vs: seq<string>)
  {
    if |items| == 0 then [] else Values(items[..|items| - 1]) + [items[|items| - 1].1]
  }

  /** Values keeps one entry per item, in order, and drops every key. */
  lemma {:induction false} ValuesAt(items: seq<(string, string)>)
    ensures |Values(items)| == |items|
    ensures forall i :: 0 <= i < |items| ==> Values(items)[i] == items[i].1
  {
    if |items| > 0 {
      ValuesAt(items[..|items| - 1]);
    }
  }

  /** Keys carry no meaning: two sections with the same values in the same order
      give the same list, whatever their keys. */
  lemma KeysIgnored(a: seq<(string, string)>, b: seq<(string, string)>)
    requires |a| == |b|
    requires forall i :: 0 <= i < |a| ==> a[i].1 == b[i].1
    ensures Values(a) == Values(b)
  {
    ValuesAt(a);
    ValuesAt(b);
  }

  /** The loop that collects a section's values: one `append` per item. */
  method ExtractValues(items: seq<(string, string)>) returns (values: seq<string>)
    ensures |values| == |items|
    ensures forall i :: 0 <= i < |items| ==> values[i] == items[i].1
  {
    values := [];
    var i := 0;
    while i < |items|
      invariant 0 <= i <= |items|
      invariant |values| == i
      invariant forall j :: 0 <= j < i ==> values[j] == items[j].1
    {
      var (_, value) := items[i];
      values := values + [value];
      i := i + 1;
    }
  }

  /** get_sample_by_name after parsing: the record takes the `name` found in the
      file, not the name used to look the file up. */
  method LoadSample(lookupName: string, name: string, reps: int, pairedEnd: bool,
                    filenameItems: seq<(string, string)>) returns (sample: Sample)
    ensures fresh(sample)
    ensures sample.Value() == SampleConfig(name, reps, Values(filenameItems), pairedEnd)
  {
    var filenames := ExtractValues(filenameItems);
    ValuesAt(filenameItems);
    sample := new Sample(name, reps, filenames, pairedEnd);
  }

  /** get_global_options after parsing: the header lines keep their file order. */
  method LoadGlobalOptions(genomeLocation: string, gtfLocation: string, outputDirectory: string,
                           sampleConfigurationDirectory: string, headerItems: seq<(string, string)>,
                           threadNumber: int, starLocation: string) returns (options: GlobalOptions)
    ensures options == GlobalOptions(genomeLocation, gtfLocation, outputDirectory,
                                     sampleConfigurationDirectory, Values(headerItems),
                                     threadNumber, starLocation)
  {
    var header := ExtractValues(headerItems);
    ValuesAt(headerItems);
    options := GlobalOptions(genomeLocation, gtfLocation, outputDirectory,
                             sampleConfigurationDirectory, header, threadNumber, starLocation);
  }
}
