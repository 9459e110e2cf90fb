/**
 * The GUI's task runner: the command-line arguments it builds from an option
 * record, the quoting of path values, and the argument strings of a dry run and
 * of a real run. `Decode` reads an argument list back as the command-line program
 * receives it, and is the inverse the argument list is proved against.
 */
module EverythingRunner {
  import opened Wrappers
  import opened Strings
  import opened CmdOptions
  import Paths

  // ---------------------------------------------------------------------------
  // Quoting

  /** `AddQuotes`: a value already starting and ending with '"' is kept, any other is wrapped. */
  function AddQuotes(path: string): string
  {
    if StartsWith(path, "\"") && EndsWith(path, "\"") then path
    else "\"" + path + "\""
  }

  /**
   * A quoted value starts and ends with '"'; it is the value itself exactly when
   * that already did, and otherwise the value wrapped in one pair of quotes.
   */
  lemma AddQuotesShape(path: string)
    ensures var r := AddQuotes(path);
      && StartsWith(r, "\"") && EndsWith(r, "\"")
      && (r == path <==> StartsWith(path, "\"") && EndsWith(path, "\""))
      && (r != path ==> r == "\"" + path + "\"" && r[1..|r| - 1] == path)
  {
    var q := "\"" + path + "\"";
    assert q[..1] == "\"";
    assert q[|q| - 1..] == "\"";
    assert q[1..|q| - 1] == path;
  }

  /** Quoting twice is quoting once. */
  lemma AddQuotesIdempotent(path: string)
    ensures AddQuotes(AddQuotes(path)) == AddQuotes(path)
  {
    AddQuotesShape(path);
  }

  // ---------------------------------------------------------------------------
  // Flags

  /** The command-line flags the runner emits, one per option it passes on, in the order it emits them. */
  datatype Flag =
    | Command | SpritzDirectory | AnalysisDirectory | Fastq1 | Fastq2 | ExperimentType | SraAccession
    | Threads | GenomeStarIndexDirectory | GenomeFasta | GeneModelGtfOrGff | NewGeneModelGtfOrGff
    | ReferenceVcf | Reference | UniProtXml | IndelFinder | OverwriteStarAlignments | StrandSpecific
    | InferStrandSpecificity | DoTranscriptIsoformAnalysis | DoFusionAnalysis | SkipVariantAnalysis
    | VariantCallingWorkers

  /** The number of flags, and of `if` blocks in `GenerateArguments` with the leading "-c" pair. */
  const FlagCount: nat := 23

  /** The i-th flag `GenerateArguments` considers. */
  function FlagAt(i: nat): Flag
    requires i < FlagCount
  {
    match i
    case 0 => Command
    case 1 => SpritzDirectory
    case 2 => AnalysisDirectory
    case 3 => Fastq1
    case 4 => Fastq2
    case 5 => ExperimentType
    case 6 => SraAccession
    case 7 => Threads
    case 8 => GenomeStarIndexDirectory
    case 9 => GenomeFasta
    case 10 => GeneModelGtfOrGff
    case 11 => NewGeneModelGtfOrGff
    case 12 => ReferenceVcf
    case 13 => Reference
    case 14 => UniProtXml
    case 15 => IndelFinder
    case 16 => OverwriteStarAlignments
    case 17 => StrandSpecific
    case 18 => InferStrandSpecificity
    case 19 => DoTranscriptIsoformAnalysis
    case 20 => DoFusionAnalysis
    case 21 => SkipVariantAnalysis
    case _ => VariantCallingWorkers
  }

  /** The position of a flag among the blocks of `GenerateArguments`. */
  function FlagIndex(f: Flag): (i: nat)
    ensures i < FlagCount
  {
    match f
    case Command => 0
    case SpritzDirectory => 1
    case AnalysisDirectory => 2
    case Fastq1 => 3
    case Fastq2 => 4
    case ExperimentType => 5
    case SraAccession => 6
    case Threads => 7
    case GenomeStarIndexDirectory => 8
    case GenomeFasta => 9
    case GeneModelGtfOrGff => 10
    case NewGeneModelGtfOrGff => 11
    case ReferenceVcf => 12
    case Reference => 13
    case UniProtXml => 14
    case IndelFinder => 15
    case OverwriteStarAlignments => 16
    case StrandSpecific => 17
    case InferStrandSpecificity => 18
    case DoTranscriptIsoformAnalysis => 19
    case DoFusionAnalysis => 20
    case SkipVariantAnalysis => 21
    case VariantCallingWorkers => 22
  }

  /** Positions and flags correspond one to one. */
  lemma FlagIndexAt(f: Flag, i: nat)
    requires i < FlagCount
    ensures FlagAt(FlagIndex(f)) == f
    ensures FlagIndex(FlagAt(i)) == i
  {
  }

  /** The text of a flag on the command line. */
  function FlagName(f: Flag): string
  {
    match f
    case Command => "-c"
    case SpritzDirectory => "-b"
    case AnalysisDirectory => "-a"
    case Fastq1 => "--fq1"
    case Fastq2 => "--fq2"
    case ExperimentType => "-e"
    case SraAccession => "-s"
    case Threads => "-t"
    case GenomeStarIndexDirectory => "-d"
    case GenomeFasta => "-f"
    case GeneModelGtfOrGff => "-g"
    case NewGeneModelGtfOrGff => "-h"
    case ReferenceVcf => "-v"
    case Reference => "-r"
    case UniProtXml => "-x"
    case IndelFinder => "--indelFinder"
    case OverwriteStarAlignments => "--overwriteStarAlignments"
    case StrandSpecific => "--strandSpecific"
    case InferStrandSpecificity => "--inferStrandedness"
    case DoTranscriptIsoformAnalysis => "--doTranscriptIsoformAnalysis"
    case DoFusionAnalysis => "--doGeneFusionAnalysis"
    case SkipVariantAnalysis => "--skipVariantAnalysis"
    case VariantCallingWorkers => "--variantCallingWorkers"
  }

  /** The flags that stand alone; every other flag is followed by a value. */
  predicate Standalone(f: Flag)
  {
    f.OverwriteStarAlignments? || f.StrandSpecific? || f.InferStrandSpecificity?
    || f.DoTranscriptIsoformAnalysis? || f.DoFusionAnalysis? || f.SkipVariantAnalysis?
  }

  /** The flag a command-line word names, if any: a two-letter word is a short name, any other a long one. */
  function ParseFlag(word: string): Option<Flag>
  {
    if |word| == 2 then ParseShortFlag(word) else ParseLongFlag(word)
  }

  /** The flags with a one-letter name, "-" and the letter. */
  function ParseShortFlag(word: string): Option<Flag>
  {
    if |word| != 2 || word[0] != '-' then None
    else match word[1]
      case 'c' => Some(Command)
      case 'b' => Some(SpritzDirectory)
      case 'a' => Some(AnalysisDirectory)
      case 'e' => Some(ExperimentType)
      case 's' => Some(SraAccession)
      case 't' => Some(Threads)
      case 'd' => Some(GenomeStarIndexDirectory)
      case 'f' => Some(GenomeFasta)
      case 'g' => Some(GeneModelGtfOrGff)
      case 'h' => Some(NewGeneModelGtfOrGff)
      case 'v' => Some(ReferenceVcf)
      case 'r' => Some(Reference)
      case 'x' => Some(UniProtXml)
      case _ => None
  }

  /** The flags with a long name, looked up among the names of the word's length. */
  function ParseLongFlag(word: string): Option<Flag>
  {
    match |word|
    case 5 => if word == "--fq1" then Some(Fastq1) else if word == "--fq2" then Some(Fastq2) else None
    case 13 => if word == "--indelFinder" then Some(IndelFinder) else None
    case 25 => if word == "--overwriteStarAlignments" then Some(OverwriteStarAlignments) else None
    case 16 => if word == "--strandSpecific" then Some(StrandSpecific) else None
    case 19 => if word == "--inferStrandedness" then Some(InferStrandSpecificity) else None
    case 29 => if word == "--doTranscriptIsoformAnalysis" then Some(DoTranscriptIsoformAnalysis) else None
    case 22 => if word == "--doGeneFusionAnalysis" then Some(DoFusionAnalysis) else None
    case 21 => if word == "--skipVariantAnalysis" then Some(SkipVariantAnalysis) else None
    case 23 => if word == "--variantCallingWorkers" then Some(VariantCallingWorkers) else None
    case _ => None
  }

  /** Every flag's text reads back as that flag, so no two flags share a text. */
  lemma ParseFlagName(f: Flag)
    ensures ParseFlag(FlagName(f)) == Some(f)
  {
    if |FlagName(f)| == 2 {
      ShortFlagName(f);
    } else {
      LongFlagName(f);
    }
  }

  /** The one-letter names read back as their flags. */
  lemma ShortFlagName(f: Flag)
    requires |FlagName(f)| == 2
    ensures ParseShortFlag(FlagName(f)) == Some(f)
  {
  }

  /** The long names read back as their flags. */
  lemma LongFlagName(f: Flag)
    requires |FlagName(f)| != 2
    ensures ParseLongFlag(FlagName(f)) == Some(f)
  {
  }

  // ---------------------------------------------------------------------------
  // The argument list

  /** A string option counts as given when it is neither null nor "". */
  function Given(value: Option<string>): (r: Option<string>)
    ensures r.Some? <==> value.Some? && value.value != ""
    ensures r.Some? ==> r == value
  {
    if value.Some? && value.value != "" then value else None
  }

  /** A flag and its value, emitted only for a given value; path values are quoted. */
  function ValuePair(flag: Flag, value: Option<string>, quote: bool): seq<string>
  {
    match Given(value)
    case None => []
    case Some(v) => [FlagName(flag), if quote then AddQuotes(v) else v]
  }

  /** A flag and a count, emitted only for a count in 1..processorCount. */
  function CountPair(flag: Flag, n: int, processorCount: int): seq<string>
  {
    if 0 < n <= processorCount then [FlagName(flag), IntToString(n)] else []
  }

  /** A switch, emitted only when it is on. */
  function Switch(flag: Flag, on: bool): seq<string>
  {
    if on then [FlagName(flag)] else []
  }

  /** A flag and a value, emitted only when another option, the guard, is given. */
  function GuardedPair(flag: Flag, guard: Option<string>, value: string): seq<string>
  {
    if Given(guard).Some? then [FlagName(flag), value] else []
  }

  /**
   * One `if` block of `GenerateArguments`, as data: a pair always emitted, a
   * string option emitted when given, a count emitted when in range, a switch
   * emitted when on, or a pair emitted when another option is given.
   */
  datatype Block =
    | Fixed(flag: Flag, value: string)
    | Text(flag: Flag, text: Option<string>, quote: bool)
    | Count(flag: Flag, n: int)
    | Toggle(flag: Flag, on: bool)
    | Guarded(flag: Flag, guard: Option<string>, value: string)

  /** The words a block adds to the list. */
  function Render(b: Block, processorCount: int): seq<string>
  {
    match b
    case Fixed(f, v) => [FlagName(f), v]
    case Text(f, t, quote) => ValuePair(f, t, quote)
    case Count(f, n) => CountPair(f, n, processorCount)
    case Toggle(f, on) => Switch(f, on)
    case Guarded(f, g, v) => GuardedPair(f, g, v)
  }

  /** A block whose flag is of the right kind: valued flags carry a value, switches stand alone. */
  predicate WellFormed(b: Block)
  {
    match b
    case Toggle(f, _) => Standalone(f)
    case _ => !Standalone(b.flag)
  }

  /**
   * The block of `GenerateArguments` for a flag: the command (null as ""), the
   * string options (paths quoted), the counts, the indel finder only when a
   * UniProt XML is given, and the switches.
   */
  function BlockFor(options: Settings, f: Flag): (b: Block)
    ensures WellFormed(b)
    ensures b.flag == f
  {
    var o := options;
    match f
    case Command => Fixed(Command, o.command.GetOr(""))
    case SpritzDirectory => Text(SpritzDirectory, o.spritzDirectory, true)
    case AnalysisDirectory => Text(AnalysisDirectory, o.analysisDirectory, true)
    case Fastq1 => Text(Fastq1, o.fastq1, true)
    case Fastq2 => Text(Fastq2, o.fastq2, true)
    case ExperimentType => Text(ExperimentType, o.experimentType, false)
    case SraAccession => Text(SraAccession, o.sraAccession, false)
    case Threads => Count(Threads, o.threads)
    case GenomeStarIndexDirectory => Text(GenomeStarIndexDirectory, o.genomeStarIndexDirectory, true)
    case GenomeFasta => Text(GenomeFasta, o.genomeFasta, true)
    case GeneModelGtfOrGff => Text(GeneModelGtfOrGff, o.geneModelGtfOrGff, true)
    case NewGeneModelGtfOrGff => Text(NewGeneModelGtfOrGff, o.newGeneModelGtfOrGff, true)
    case ReferenceVcf => Text(ReferenceVcf, o.referenceVcf, true)
    case Reference => Text(Reference, o.reference, false)
    case UniProtXml => Text(UniProtXml, o.uniProtXml, true)
    case IndelFinder => Guarded(IndelFinder, o.uniProtXml, o.indelFinder.GetOr(""))
    case OverwriteStarAlignments => Toggle(OverwriteStarAlignments, o.overwriteStarAlignments)
    case StrandSpecific => Toggle(StrandSpecific, o.strandSpecific)
    case InferStrandSpecificity => Toggle(InferStrandSpecificity, o.inferStrandSpecificity)
    case DoTranscriptIsoformAnalysis => Toggle(DoTranscriptIsoformAnalysis, o.doTranscriptIsoformAnalysis)
    case DoFusionAnalysis => Toggle(DoFusionAnalysis, o.doFusionAnalysis)
    case SkipVariantAnalysis => Toggle(SkipVariantAnalysis, o.skipVariantAnalysis)
    case VariantCallingWorkers => Count(VariantCallingWorkers, o.variantCallingWorkers)
  }

  /** The blocks of `GenerateArguments` for one option record, by flag. */
  function Blocks(options: Settings): Flag -> Block
  {
    f => BlockFor(options, f)
  }

  /** The words of the first k blocks, in order. */
  function ArgvTo(blocks: Flag -> Block, processorCount: int, k: nat): seq<string>
    requires k <= FlagCount
  {
    if k == 0 then []
    else ArgvTo(blocks, processorCount, k - 1) + Render(blocks(FlagAt(k - 1)), processorCount)
  }

  /** The argument list `GenerateArguments` returns: all the blocks. */
  function Argv(options: Settings, processorCount: int): seq<string>
  {
    ArgvTo(Blocks(options), processorCount, FlagCount)
  }

  /** The block `if (v != null && v != "") commands.AddRange(new[] { flag, v })`, with `AddQuotes(v)` for a path. */
  method AddValue(commands: seq<string>, flag: Flag, value: Option<string>, quote: bool) returns (r: seq<string>)
    ensures r == commands + ValuePair(flag, value, quote)
  {
    r := commands;
    if value.Some? && value.value != "" {
      r := commands + [FlagName(flag), if quote then AddQuotes(value.value) else value.value];
    }
  }

  /** The block `if (n > 0 && n <= Environment.ProcessorCount) commands.AddRange(new[] { flag, n.ToString() })`. */
  method AddCount(commands: seq<string>, flag: Flag, n: int, processorCount: int) returns (r: seq<string>)
    ensures r == commands + CountPair(flag, n, processorCount)
  {
    r := commands;
    if n > 0 && n <= processorCount {
      r := commands + [FlagName(flag), IntToString(n)];
    }
  }

  /** The block `if (g != null && g != "") commands.AddRange(new[] { flag, v })`, guarded by another option g. */
  method AddGuarded(commands: seq<string>, flag: Flag, guard: Option<string>, value: string) returns (r: seq<string>)
    ensures r == commands + GuardedPair(flag, guard, value)
  {
    r := commands;
    if guard.Some? && guard.value != "" {
      r := commands + [FlagName(flag), value];
    }
  }

  /** The block `if (on) commands.Add(flag)`. */
  method AddSwitch(commands: seq<string>, flag: Flag, on: bool) returns (r: seq<string>)
    ensures r == commands + Switch(flag, on)
  {
    r := commands;
    if on {
      r := commands + [FlagName(flag)];
    }
  }

  /** `GenerateArguments`: the list built one block at a time. */
  method GenerateArguments(options: Settings, processorCount: int) returns (commands: seq<string>)
    ensures commands == Argv(options, processorCount)
  {
    var o, pc := options, processorCount;
    commands := ["-c", o.command.GetOr("")];
    commands := AddValue(commands, SpritzDirectory, o.spritzDirectory, true);
    commands := AddValue(commands, AnalysisDirectory, o.analysisDirectory, true);
    commands := AddValue(commands, Fastq1, o.fastq1, true);
    commands := AddValue(commands, Fastq2, o.fastq2, true);
    commands := AddValue(commands, ExperimentType, o.experimentType, false);
    commands := AddValue(commands, SraAccession, o.sraAccession, false);
    commands := AddCount(commands, Threads, o.threads, pc);
    commands := AddValue(commands, GenomeStarIndexDirectory, o.genomeStarIndexDirectory, true);
    commands := AddValue(commands, GenomeFasta, o.genomeFasta, true);
    commands := AddValue(commands, GeneModelGtfOrGff, o.geneModelGtfOrGff, true);
    commands := AddValue(commands, NewGeneModelGtfOrGff, o.newGeneModelGtfOrGff, true);
    commands := AddValue(commands, ReferenceVcf, o.referenceVcf, true);
    commands := AddValue(commands, Reference, o.reference, false);
    commands := AddValue(commands, UniProtXml, o.uniProtXml, true);
    commands := AddGuarded(commands, IndelFinder, o.uniProtXml, o.indelFinder.GetOr(""));
    commands := AddSwitch(commands, OverwriteStarAlignments, o.overwriteStarAlignments);
    commands := AddSwitch(commands, StrandSpecific, o.strandSpecific);
    commands := AddSwitch(commands, InferStrandSpecificity, o.inferStrandSpecificity);
    commands := AddSwitch(commands, DoTranscriptIsoformAnalysis, o.doTranscriptIsoformAnalysis);
    commands := AddSwitch(commands, DoFusionAnalysis, o.doFusionAnalysis);
    commands := AddSwitch(commands, SkipVariantAnalysis, o.skipVariantAnalysis);
    commands := AddCount(commands, VariantCallingWorkers, o.variantCallingWorkers, pc);
    ArgvSpelledOut(o, pc);
  }

  /** The list, block by block, in the words of `GenerateArguments`. */
  lemma ArgvSpelledOut(options: Settings, processorCount: int)
    ensures var o, pc := options, processorCount;
      Argv(o, pc)
      == ["-c", o.command.GetOr("")]
       + ValuePair(SpritzDirectory, o.spritzDirectory, true)
       + ValuePair(AnalysisDirectory, o.analysisDirectory, true)
       + ValuePair(Fastq1, o.fastq1, true)
       + ValuePair(Fastq2, o.fastq2, true)
       + ValuePair(ExperimentType, o.experimentType, false)
       + ValuePair(SraAccession, o.sraAccession, false)
       + CountPair(Threads, o.threads, pc)
       + ValuePair(GenomeStarIndexDirectory, o.genomeStarIndexDirectory, true)
       + ValuePair(GenomeFasta, o.genomeFasta, true)
       + ValuePair(GeneModelGtfOrGff, o.geneModelGtfOrGff, true)
       + ValuePair(NewGeneModelGtfOrGff, o.newGeneModelGtfOrGff, true)
       + ValuePair(ReferenceVcf, o.referenceVcf, true)
       + ValuePair(Reference, o.reference, false)
       + ValuePair(UniProtXml, o.uniProtXml, true)
       + GuardedPair(IndelFinder, o.uniProtXml, o.indelFinder.GetOr(""))
       + Switch(OverwriteStarAlignments, o.overwriteStarAlignments)
       + Switch(StrandSpecific, o.strandSpecific)
       + Switch(InferStrandSpecificity, o.inferStrandSpecificity)
       + Switch(DoTranscriptIsoformAnalysis, o.doTranscriptIsoformAnalysis)
       + Switch(DoFusionAnalysis, o.doFusionAnalysis)
       + Switch(SkipVariantAnalysis, o.skipVariantAnalysis)
       + CountPair(VariantCallingWorkers, o.variantCallingWorkers, pc)
  {
    assert ArgvTo(Blocks(options), processorCount, 1) == ["-c", options.command.GetOr("")];
    ArgvDirectories(options, processorCount);
    ArgvReads(options, processorCount);
    ArgvGenome(options, processorCount);
    ArgvGeneModels(options, processorCount);
    ArgvProteins(options, processorCount);
    ArgvSwitches(options, processorCount);
    ArgvAnalyses(options, processorCount);
  }

  /** Blocks 2 to 4: the Spritz and analysis directories and the first read file. */
  lemma ArgvDirectories(options: Settings, processorCount: int)
    ensures var o, pc := options, processorCount;
      ArgvTo(Blocks(o), pc, 4)
      == ArgvTo(Blocks(o), pc, 1)
       + ValuePair(SpritzDirectory, o.spritzDirectory, true)
       + ValuePair(AnalysisDirectory, o.analysisDirectory, true)
       + ValuePair(Fastq1, o.fastq1, true)
  {
    var o, pc := options, processorCount;
    DirectoryRenders(o, pc);
    RenderRun(Blocks(o), pc, 1, ValuePair(SpritzDirectory, o.spritzDirectory, true),
      ValuePair(AnalysisDirectory, o.analysisDirectory, true), ValuePair(Fastq1, o.fastq1, true));
  }

  /** Blocks 2 to 4, rendered. */
  lemma DirectoryRenders(options: Settings, processorCount: int)
    ensures var b, o, pc := Blocks(options), options, processorCount;
      && Render(b(FlagAt(1)), pc) == ValuePair(SpritzDirectory, o.spritzDirectory, true)
      && Render(b(FlagAt(2)), pc) == ValuePair(AnalysisDirectory, o.analysisDirectory, true)
      && Render(b(FlagAt(3)), pc) == ValuePair(Fastq1, o.fastq1, true)
  {
    var b, o := Blocks(options), options;
    assert b(FlagAt(1)) == Text(SpritzDirectory, o.spritzDirectory, true);
    assert b(FlagAt(2)) == Text(AnalysisDirectory, o.analysisDirectory, true);
    assert b(FlagAt(3)) == Text(Fastq1, o.fastq1, true);
  }

  /** Blocks 5 to 7: the second read file, the experiment type and the SRA accession. */
  lemma ArgvReads(options: Settings, processorCount: int)
    ensures var o, pc := options, processorCount;
      ArgvTo(Blocks(o), pc, 7)
      == ArgvTo(Blocks(o), pc, 4)
       + ValuePair(Fastq2, o.fastq2, true)
       + ValuePair(ExperimentType, o.experimentType, false)
       + ValuePair(SraAccession, o.sraAccession, false)
  {
    var o, pc := options, processorCount;
    ReadRenders(o, pc);
    RenderRun(Blocks(o), pc, 4, ValuePair(Fastq2, o.fastq2, true),
      ValuePair(ExperimentType, o.experimentType, false), ValuePair(SraAccession, o.sraAccession, false));
  }

  /** Blocks 5 to 7, rendered. */
  lemma ReadRenders(options: Settings, processorCount: int)
    ensures var b, o, pc := Blocks(options), options, processorCount;
      && Render(b(FlagAt(4)), pc) == ValuePair(Fastq2, o.fastq2, true)
      && Render(b(FlagAt(5)), pc) == ValuePair(ExperimentType, o.experimentType, false)
      && Render(b(FlagAt(6)), pc) == ValuePair(SraAccession, o.sraAccession, false)
  {
    var b, o := Blocks(options), options;
    assert b(FlagAt(4)) == Text(Fastq2, o.fastq2, true);
    assert b(FlagAt(5)) == Text(ExperimentType, o.experimentType, false);
    assert b(FlagAt(6)) == Text(SraAccession, o.sraAccession, false);
  }

  /** Blocks 8 to 10: the threads, the STAR index and the genome. */
  lemma ArgvGenome(options: Settings, processorCount: int)
    ensures var o, pc := options, processorCount;
      ArgvTo(Blocks(o), pc, 10)
      == ArgvTo(Blocks(o), pc, 7)
       + CountPair(Threads, o.threads, pc)
       + ValuePair(GenomeStarIndexDirectory, o.genomeStarIndexDirectory, true)
       + ValuePair(GenomeFasta, o.genomeFasta, true)
  {
    var o, pc := options, processorCount;
    GenomeRenders(o, pc);
    RenderRun(Blocks(o), pc, 7, CountPair(Threads, o.threads, pc),
      ValuePair(GenomeStarIndexDirectory, o.genomeStarIndexDirectory, true), ValuePair(GenomeFasta, o.genomeFasta, true));
  }

  /** Blocks 8 to 10, rendered. */
  lemma GenomeRenders(options: Settings, processorCount: int)
    ensures var b, o, pc := Blocks(options), options, processorCount;
      && Render(b(FlagAt(7)), pc) == CountPair(Threads, o.threads, pc)
      && Render(b(FlagAt(8)), pc) == ValuePair(GenomeStarIndexDirectory, o.genomeStarIndexDirectory, true)
      && Render(b(FlagAt(9)), pc) == ValuePair(GenomeFasta, o.genomeFasta, true)
  {
    var b, o := Blocks(options), options;
    assert b(FlagAt(7)) == Count(Threads, o.threads);
    assert b(FlagAt(8)) == Text(GenomeStarIndexDirectory, o.genomeStarIndexDirectory, true);
    assert b(FlagAt(9)) == Text(GenomeFasta, o.genomeFasta, true);
  }

  /** Blocks 11 to 13: the gene models and the reference VCF. */
  lemma ArgvGeneModels(options: Settings, processorCount: int)
    ensures var o, pc := options, processorCount;
      ArgvTo(Blocks(o), pc, 13)
      == ArgvTo(Blocks(o), pc, 10)
       + ValuePair(GeneModelGtfOrGff, o.geneModelGtfOrGff, true)
       + ValuePair(NewGeneModelGtfOrGff, o.newGeneModelGtfOrGff, true)
       + ValuePair(ReferenceVcf, o.referenceVcf, true)
  {
    var o, pc := options, processorCount;
    GeneModelRenders(o, pc);
    RenderRun(Blocks(o), pc, 10, ValuePair(GeneModelGtfOrGff, o.geneModelGtfOrGff, true),
      ValuePair(NewGeneModelGtfOrGff, o.newGeneModelGtfOrGff, true), ValuePair(ReferenceVcf, o.referenceVcf, true));
  }

  /** Blocks 11 to 13, rendered. */
  lemma GeneModelRenders(options: Settings, processorCount: int)
    ensures var b, o, pc := Blocks(options), options, processorCount;
      && Render(b(FlagAt(10)), pc) == ValuePair(GeneModelGtfOrGff, o.geneModelGtfOrGff, true)
      && Render(b(FlagAt(11)), pc) == ValuePair(NewGeneModelGtfOrGff, o.newGeneModelGtfOrGff, true)
      && Render(b(FlagAt(12)), pc) == ValuePair(ReferenceVcf, o.referenceVcf, true)
  {
    var b, o := Blocks(options), options;
    assert b(FlagAt(10)) == Text(GeneModelGtfOrGff, o.geneModelGtfOrGff, true);
    assert b(FlagAt(11)) == Text(NewGeneModelGtfOrGff, o.newGeneModelGtfOrGff, true);
    assert b(FlagAt(12)) == Text(ReferenceVcf, o.referenceVcf, true);
  }

  /** Blocks 14 to 16: the reference, the UniProt XML and the indel finder. */
  lemma ArgvProteins(options: Settings, processorCount: int)
    ensures var o, pc := options, processorCount;
      ArgvTo(Blocks(o), pc, 16)
      == ArgvTo(Blocks(o), pc, 13)
       + ValuePair(Reference, o.reference, false)
       + ValuePair(UniProtXml, o.uniProtXml, true)
       + GuardedPair(IndelFinder, o.uniProtXml, o.indelFinder.GetOr(""))
  {
    var o, pc := options, processorCount;
    ProteinRenders(o, pc);
    RenderRun(Blocks(o), pc, 13, ValuePair(Reference, o.reference, false),
      ValuePair(UniProtXml, o.uniProtXml, true), GuardedPair(IndelFinder, o.uniProtXml, o.indelFinder.GetOr("")));
  }

  /** Blocks 14 to 16, rendered. */
  lemma ProteinRenders(options: Settings, processorCount: int)
    ensures var b, o, pc := Blocks(options), options, processorCount;
      && Render(b(FlagAt(13)), pc) == ValuePair(Reference, o.reference, false)
      && Render(b(FlagAt(14)), pc) == ValuePair(UniProtXml, o.uniProtXml, true)
      && Render(b(FlagAt(15)), pc) == GuardedPair(IndelFinder, o.uniProtXml, o.indelFinder.GetOr(""))
  {
    var b, o := Blocks(options), options;
    assert b(FlagAt(13)) == Text(Reference, o.reference, false);
    assert b(FlagAt(14)) == Text(UniProtXml, o.uniProtXml, true);
    assert b(FlagAt(15)) == Guarded(IndelFinder, o.uniProtXml, o.indelFinder.GetOr(""));
  }

  /** Blocks 17 to 19: the first three switches. */
  lemma ArgvSwitches(options: Settings, processorCount: int)
    ensures var o, pc := options, processorCount;
      ArgvTo(Blocks(o), pc, 19)
      == ArgvTo(Blocks(o), pc, 16)
       + Switch(OverwriteStarAlignments, o.overwriteStarAlignments)
       + Switch(StrandSpecific, o.strandSpecific)
       + Switch(InferStrandSpecificity, o.inferStrandSpecificity)
  {
    var o, pc := options, processorCount;
    SwitchRenders(o, pc);
    RenderRun(Blocks(o), pc, 16, Switch(OverwriteStarAlignments, o.overwriteStarAlignments),
      Switch(StrandSpecific, o.strandSpecific), Switch(InferStrandSpecificity, o.inferStrandSpecificity));
  }

  /** Blocks 17 to 19, rendered. */
  lemma SwitchRenders(options: Settings, processorCount: int)
    ensures var b, o, pc := Blocks(options), options, processorCount;
      && Render(b(FlagAt(16)), pc) == Switch(OverwriteStarAlignments, o.overwriteStarAlignments)
      && Render(b(FlagAt(17)), pc) == Switch(StrandSpecific, o.strandSpecific)
      && Render(b(FlagAt(18)), pc) == Switch(InferStrandSpecificity, o.inferStrandSpecificity)
  {
    var b, o := Blocks(options), options;
    assert b(FlagAt(16)) == Toggle(OverwriteStarAlignments, o.overwriteStarAlignments);
    assert b(FlagAt(17)) == Toggle(StrandSpecific, o.strandSpecific);
    assert b(FlagAt(18)) == Toggle(InferStrandSpecificity, o.inferStrandSpecificity);
  }

  /** Blocks 20 to 23: the analysis switches and the variant-calling workers. */
  lemma ArgvAnalyses(options: Settings, processorCount: int)
    ensures var o, pc := options, processorCount;
      ArgvTo(Blocks(o), pc, 23)
      == ArgvTo(Blocks(o), pc, 19)
       + Switch(DoTranscriptIsoformAnalysis, o.doTranscriptIsoformAnalysis)
       + Switch(DoFusionAnalysis, o.doFusionAnalysis)
       + Switch(SkipVariantAnalysis, o.skipVariantAnalysis)
       + CountPair(VariantCallingWorkers, o.variantCallingWorkers, pc)
  {
    var o, pc := options, processorCount;
    AnalysisRenders(o, pc);
    RenderRun(Blocks(o), pc, 19, Switch(DoTranscriptIsoformAnalysis, o.doTranscriptIsoformAnalysis),
      Switch(DoFusionAnalysis, o.doFusionAnalysis), Switch(SkipVariantAnalysis, o.skipVariantAnalysis));
    WorkersRenders(o, pc);
    RenderStep(Blocks(o), pc, 22, CountPair(VariantCallingWorkers, o.variantCallingWorkers, pc));
  }

  /** Blocks 20 to 22, rendered. */
  lemma AnalysisRenders(options: Settings, processorCount: int)
    ensures var b, o, pc := Blocks(options), options, processorCount;
      && Render(b(FlagAt(19)), pc) == Switch(DoTranscriptIsoformAnalysis, o.doTranscriptIsoformAnalysis)
      && Render(b(FlagAt(20)), pc) == Switch(DoFusionAnalysis, o.doFusionAnalysis)
      && Render(b(FlagAt(21)), pc) == Switch(SkipVariantAnalysis, o.skipVariantAnalysis)
  {
    var b, o := Blocks(options), options;
    assert b(FlagAt(19)) == Toggle(DoTranscriptIsoformAnalysis, o.doTranscriptIsoformAnalysis);
    assert b(FlagAt(20)) == Toggle(DoFusionAnalysis, o.doFusionAnalysis);
    assert b(FlagAt(21)) == Toggle(SkipVariantAnalysis, o.skipVariantAnalysis);
  }

  /** Block 23, rendered. */
  lemma WorkersRenders(options: Settings, processorCount: int)
    ensures Render(Blocks(options)(FlagAt(22)), processorCount)
         == CountPair(VariantCallingWorkers, options.variantCallingWorkers, processorCount)
  {
    assert Blocks(options)(FlagAt(22)) == Count(VariantCallingWorkers, options.variantCallingWorkers);
  }

  /** Three consecutive blocks extend the words before them by their three renderings. */
  lemma Extend3(blocks: Flag -> Block, processorCount: int, k: nat, x: seq<string>, y: seq<string>, z: seq<string>)
    requires k + 3 <= FlagCount
    requires ArgvTo(blocks, processorCount, k + 1) == ArgvTo(blocks, processorCount, k) + x
    requires ArgvTo(blocks, processorCount, k + 2) == ArgvTo(blocks, processorCount, k + 1) + y
    requires ArgvTo(blocks, processorCount, k + 3) == ArgvTo(blocks, processorCount, k + 2) + z
    ensures ArgvTo(blocks, processorCount, k + 3) == ArgvTo(blocks, processorCount, k) + x + y + z
  {
    ConcatSteps(ArgvTo(blocks, processorCount, k), ArgvTo(blocks, processorCount, k + 1),
      ArgvTo(blocks, processorCount, k + 2), ArgvTo(blocks, processorCount, k + 3), x, y, z);
  }

  /** Three appends in a row are one append of the three parts. */
  lemma ConcatSteps<T>(a: seq<T>, b: seq<T>, c: seq<T>, d: seq<T>, x: seq<T>, y: seq<T>, z: seq<T>)
    requires b == a + x && c == b + y && d == c + z
    ensures d == a + x + y + z
  {
  }

  /** Three blocks in a row extend the words before them by their renderings. */
  lemma RenderRun(blocks: Flag -> Block, processorCount: int, k: nat, x: seq<string>, y: seq<string>, z: seq<string>)
    requires k + 3 <= FlagCount
    requires Render(blocks(FlagAt(k)), processorCount) == x
    requires Render(blocks(FlagAt(k + 1)), processorCount) == y
    requires Render(blocks(FlagAt(k + 2)), processorCount) == z
    ensures ArgvTo(blocks, processorCount, k + 3) == ArgvTo(blocks, processorCount, k) + x + y + z
  {
    Extend3(blocks, processorCount, k, x, y, z);
  }

  /** One block extends the words before it by its rendering. */
  lemma RenderStep(blocks: Flag -> Block, processorCount: int, k: nat, x: seq<string>)
    requires k < FlagCount
    requires Render(blocks(FlagAt(k)), processorCount) == x
    ensures ArgvTo(blocks, processorCount, k + 1) == ArgvTo(blocks, processorCount, k) + x
  {
  }

  /** Every prefix of one block or more starts with "-c" and the command, when the first block is the command's. */
  lemma {:induction false} ArgvToLeading(blocks: Flag -> Block, processorCount: int, k: nat, command: string)
    requires 1 <= k <= FlagCount && blocks(Command) == Fixed(Command, command)
    ensures |ArgvTo(blocks, processorCount, k)| >= 2
    ensures ArgvTo(blocks, processorCount, k)[..2] == ["-c", command]
  {
    if k > 1 {
      ArgvToLeading(blocks, processorCount, k - 1, command);
      var a := ArgvTo(blocks, processorCount, k - 1);
      assert (a + Render(blocks(FlagAt(k - 1)), processorCount))[..2] == a[..2];
    }
  }

  /** The list always starts with "-c" and the command. */
  lemma ArgvLeading(options: Settings, processorCount: int)
    ensures |Argv(options, processorCount)| >= 2
    ensures Argv(options, processorCount)[..2] == ["-c", options.command.GetOr("")]
  {
    ArgvToLeading(Blocks(options), processorCount, FlagCount, options.command.GetOr(""));
  }

  // ---------------------------------------------------------------------------
  // Reading the list back

  /**
   * Reads an argument list as its flags, each with its value ("" for a switch),
   * given how words name flags; an unknown word or a missing value fails. With
   * `ParseFlag` it reads as the command-line program reads its arguments.
   */
  function Tokens(args: seq<string>, parse: string -> Option<Flag>): Option<seq<(Flag, string)>>
    decreases |args|
  {
    if |args| == 0 then Some([])
    else match parse(args[0])
      case None => None
      case Some(f) =>
        if Standalone(f) then Prepend((f, ""), Tokens(args[1..], parse))
        else if |args| < 2 then None
        else Prepend((f, args[1]), Tokens(args[2..], parse))
  }

  /** One token in front of a read, if the read succeeded. */
  function Prepend(t: (Flag, string), rest: Option<seq<(Flag, string)>>): Option<seq<(Flag, string)>>
  {
    match rest
    case None => None
    case Some(ts) => Some([t] + ts)
  }

  /** Two lists that read completely read completely together, one after the other. */
  lemma {:induction false} TokensAppend(a: seq<string>, b: seq<string>, parse: string -> Option<Flag>)
    requires Tokens(a, parse).Some? && Tokens(b, parse).Some?
    ensures Tokens(a + b, parse) == Some(Tokens(a, parse).value + Tokens(b, parse).value)
    decreases |a|
  {
    if |a| == 0 {
      assert a + b == b;
      assert Tokens(a, parse) == Some([]);
      assert [] + Tokens(b, parse).value == Tokens(b, parse).value;
    } else {
      var ab := a + b;
      assert ab[0] == a[0];
      var f := parse(a[0]).value;
      var tb := Tokens(b, parse).value;
      if Standalone(f) {
        var rest := a[1..];
        assert ab[1..] == rest + b;
        TokensAppend(rest, b, parse);
        var ta := Tokens(rest, parse).value;
        assert Tokens(a, parse) == Some([(f, "")] + ta);
        assert Tokens(ab, parse) == Prepend((f, ""), Tokens(rest + b, parse));
        assert [(f, "")] + (ta + tb) == ([(f, "")] + ta) + tb;
      } else {
        assert |a| >= 2;
        var rest := a[2..];
        assert ab[1] == a[1];
        assert ab[2..] == rest + b;
        TokensAppend(rest, b, parse);
        var ta := Tokens(rest, parse).value;
        assert Tokens(a, parse) == Some([(f, a[1])] + ta);
        assert Tokens(ab, parse) == Prepend((f, a[1]), Tokens(rest + b, parse));
        assert [(f, a[1])] + (ta + tb) == ([(f, a[1])] + ta) + tb;
      }
    }
  }

  /** What a string option becomes on the other side: given values only, paths quoted. */
  function Received(value: Option<string>, quote: bool): Option<string>
  {
    match Given(value)
    case None => None
    case Some(v) => Some(if quote then AddQuotes(v) else v)
  }

  /** The token a block reads as, if any. */
  function BlockTokens(b: Block, processorCount: int): seq<(Flag, string)>
  {
    match b
    case Fixed(f, v) => [(f, v)]
    case Text(f, t, quote) => if Received(t, quote).Some? then [(f, Received(t, quote).value)] else []
    case Count(f, n) => if 0 < n <= processorCount then [(f, IntToString(n))] else []
    case Toggle(f, on) => if on then [(f, "")] else []
    case Guarded(f, g, v) => if Given(g).Some? then [(f, v)] else []
  }

  /** Every well-formed block reads back completely, as its token. */
  lemma ReadBlock(b: Block, processorCount: int)
    requires WellFormed(b)
    ensures Tokens(Render(b, processorCount), ParseFlag) == Some(BlockTokens(b, processorCount))
  {
    match b
    case Fixed(f, v) => ReadPair(f, v);
    case Text(f, t, quote) =>
      if Received(t, quote).Some? {
        ReadPair(f, Received(t, quote).value);
      }
    case Count(f, n) =>
      if 0 < n <= processorCount {
        ReadPair(f, IntToString(n));
      }
    case Toggle(f, on) =>
      if on {
        ReadSwitch(f);
      }
    case Guarded(f, g, v) =>
      if Given(g).Some? {
        ReadPair(f, v);
      }
  }

  /** A valued flag and its value read as one token. */
  lemma ReadPair(f: Flag, v: string)
    requires !Standalone(f)
    ensures Tokens([FlagName(f), v], ParseFlag) == Some([(f, v)])
  {
    var words := [FlagName(f), v];
    var parse: string -> Option<Flag> := ParseFlag;
    ParseFlagName(f);
    assert parse(words[0]) == Some(f);
    assert words[2..] == [];
    assert Tokens(words[2..], parse) == Some([]);
    assert Tokens(words, parse) == Prepend((f, v), Tokens(words[2..], parse));
    assert [(f, v)] + [] == [(f, v)];
  }

  /** A switch reads as one token with the empty value. */
  lemma ReadSwitch(f: Flag)
    requires Standalone(f)
    ensures Tokens([FlagName(f)], ParseFlag) == Some([(f, "")])
  {
    var words := [FlagName(f)];
    var parse: string -> Option<Flag> := ParseFlag;
    ParseFlagName(f);
    assert parse(words[0]) == Some(f);
    assert words[1..] == [];
    assert Tokens(words[1..], parse) == Some([]);
    assert Tokens(words, parse) == Prepend((f, ""), Tokens(words[1..], parse));
    assert [(f, "")] + [] == [(f, "")];
  }

  /**
   * What the list sends for a flag, if anything: the command always (null as ""),
   * a string option when given (a path quoted, the experiment type, SRA accession
   * and reference as they are), a count when in 1..processorCount, the indel
   * finder (null as "") exactly when a UniProt XML is given, a switch ("") when on.
   */
  function Sent(options: Settings, processorCount: int, f: Flag): Option<string>
  {
    var o := options;
    match f
    case Command => Some(o.command.GetOr(""))
    case SpritzDirectory => Received(o.spritzDirectory, true)
    case AnalysisDirectory => Received(o.analysisDirectory, true)
    case Fastq1 => Received(o.fastq1, true)
    case Fastq2 => Received(o.fastq2, true)
    case ExperimentType => Received(o.experimentType, false)
    case SraAccession => Received(o.sraAccession, false)
    case Threads => if 0 < o.threads <= processorCount then Some(IntToString(o.threads)) else None
    case GenomeStarIndexDirectory => Received(o.genomeStarIndexDirectory, true)
    case GenomeFasta => Received(o.genomeFasta, true)
    case GeneModelGtfOrGff => Received(o.geneModelGtfOrGff, true)
    case NewGeneModelGtfOrGff => Received(o.newGeneModelGtfOrGff, true)
    case ReferenceVcf => Received(o.referenceVcf, true)
    case Reference => Received(o.reference, false)
    case UniProtXml => Received(o.uniProtXml, true)
    case IndelFinder => if Given(o.uniProtXml).Some? then Some(o.indelFinder.GetOr("")) else None
    case OverwriteStarAlignments => if o.overwriteStarAlignments then Some("") else None
    case StrandSpecific => if o.strandSpecific then Some("") else None
    case InferStrandSpecificity => if o.inferStrandSpecificity then Some("") else None
    case DoTranscriptIsoformAnalysis => if o.doTranscriptIsoformAnalysis then Some("") else None
    case DoFusionAnalysis => if o.doFusionAnalysis then Some("") else None
    case SkipVariantAnalysis => if o.skipVariantAnalysis then Some("") else None
    case VariantCallingWorkers =>
      if 0 < o.variantCallingWorkers <= processorCount then Some(IntToString(o.variantCallingWorkers)) else None
  }

  /** The token sent for one flag, if any. */
  function SentToken(options: Settings, processorCount: int, f: Flag): seq<(Flag, string)>
  {
    match Sent(options, processorCount, f)
    case None => []
    case Some(v) => [(f, v)]
  }

  /** The block for a flag reads as the token sent for that flag. */
  lemma BlockSent(options: Settings, processorCount: int, f: Flag)
    ensures BlockTokens(BlockFor(options, f), processorCount) == SentToken(options, processorCount, f)
  {
  }

  /** The tokens the first k blocks read as, in flag order. */
  function TokensTo(blocks: Flag -> Block, processorCount: int, k: nat): seq<(Flag, string)>
    requires k <= FlagCount
  {
    if k == 0 then []
    else TokensTo(blocks, processorCount, k - 1) + BlockTokens(blocks(FlagAt(k - 1)), processorCount)
  }

  /** A block reads as at most one token, and that token is the block's flag's. */
  lemma BlockTokensFlag(b: Block, processorCount: int)
    ensures |BlockTokens(b, processorCount)| <= 1
    ensures forall t :: t in BlockTokens(b, processorCount) ==> t.0 == b.flag
  {
  }

  /** A block's words read, under `parse`, completely as its token. */
  predicate ReadsAsTokens(b: Block, processorCount: int, parse: string -> Option<Flag>)
  {
    Tokens(Render(b, processorCount), parse) == Some(BlockTokens(b, processorCount))
  }

  /** Appending a block that reads as its token to a list that reads completely appends that token. */
  lemma ArgvStep(b: Block, processorCount: int, args: seq<string>, ts: seq<(Flag, string)>,
                 parse: string -> Option<Flag>)
    requires ReadsAsTokens(b, processorCount, parse) && Tokens(args, parse) == Some(ts)
    ensures Tokens(args + Render(b, processorCount), parse) == Some(ts + BlockTokens(b, processorCount))
  {
    TokensAppend(args, Render(b, processorCount), parse);
  }

  /** The first k blocks read as their tokens, one block after the other, when each block does. */
  lemma {:induction false} ArgvToTokens(blocks: Flag -> Block, processorCount: int, k: nat,
                                        parse: string -> Option<Flag>)
    requires k <= FlagCount
    requires forall f :: ReadsAsTokens(blocks(f), processorCount, parse)
    ensures Tokens(ArgvTo(blocks, processorCount, k), parse) == Some(TokensTo(blocks, processorCount, k))
  {
    if k > 0 {
      ArgvToTokens(blocks, processorCount, k - 1, parse);
      ArgvToStep(blocks, processorCount, k, parse);
    }
  }

  /** One more block keeps the words and the tokens of the first blocks in step. */
  lemma ArgvToStep(blocks: Flag -> Block, processorCount: int, k: nat, parse: string -> Option<Flag>)
    requires 0 < k <= FlagCount
    requires ReadsAsTokens(blocks(FlagAt(k - 1)), processorCount, parse)
    requires Tokens(ArgvTo(blocks, processorCount, k - 1), parse) == Some(TokensTo(blocks, processorCount, k - 1))
    ensures Tokens(ArgvTo(blocks, processorCount, k), parse) == Some(TokensTo(blocks, processorCount, k))
  {
    ArgvStep(blocks(FlagAt(k - 1)), processorCount, ArgvTo(blocks, processorCount, k - 1),
             TokensTo(blocks, processorCount, k - 1), parse);
  }

  /** Round trip: the argument list reads back as the tokens of its blocks, in flag order. */
  lemma ArgvTokens(options: Settings, processorCount: int)
    ensures Tokens(Argv(options, processorCount), ParseFlag) == Some(TokensTo(Blocks(options), processorCount, FlagCount))
  {
    var blocks := Blocks(options);
    forall f
      ensures ReadsAsTokens(blocks(f), processorCount, ParseFlag)
    {
      assert blocks(f) == BlockFor(options, f);
      ReadBlock(blocks(f), processorCount);
    }
    ArgvToTokens(blocks, processorCount, FlagCount, ParseFlag);
  }

  /** Every block carries its own flag. */
  predicate OwnFlags(blocks: Flag -> Block)
  {
    forall g :: blocks(g).flag == g
  }

  /**
   * When every block carries its own flag, a flag is among the tokens of the first
   * k blocks exactly when it is among the first k flags and its block reads as that token.
   */
  lemma {:induction false} TokensToMembers(blocks: Flag -> Block, processorCount: int, k: nat, f: Flag, v: string)
    requires k <= FlagCount
    requires OwnFlags(blocks)
    ensures (f, v) in TokensTo(blocks, processorCount, k)
        <==> FlagIndex(f) < k && (f, v) in BlockTokens(blocks(f), processorCount)
  {
    if k > 0 {
      TokensToMembers(blocks, processorCount, k - 1, f, v);
      MemberStep(blocks, processorCount, k, f, v);
    }
  }

  /** One more block carries the membership of the lemma above from the first k - 1 blocks to the first k. */
  lemma MemberStep(blocks: Flag -> Block, processorCount: int, k: nat, f: Flag, v: string)
    requires 0 < k <= FlagCount
    requires OwnFlags(blocks)
    requires (f, v) in TokensTo(blocks, processorCount, k - 1)
        <==> FlagIndex(f) < k - 1 && (f, v) in BlockTokens(blocks(f), processorCount)
    ensures (f, v) in TokensTo(blocks, processorCount, k)
        <==> FlagIndex(f) < k && (f, v) in BlockTokens(blocks(f), processorCount)
  {
    var prev := TokensTo(blocks, processorCount, k - 1);
    assert TokensTo(blocks, processorCount, k) == prev + BlockTokens(blocks(FlagAt(k - 1)), processorCount);
    MemberAppend(prev, blocks, processorCount, k - 1, f, v);
  }

  /** The membership of the lemma above carries over from the first k blocks to the first k + 1. */
  lemma MemberAppend(prev: seq<(Flag, string)>, blocks: Flag -> Block, processorCount: int, k: nat, f: Flag, v: string)
    requires k < FlagCount
    requires forall g :: blocks(g).flag == g
    requires (f, v) in prev <==> FlagIndex(f) < k && (f, v) in BlockTokens(blocks(f), processorCount)
    ensures (f, v) in prev + BlockTokens(blocks(FlagAt(k)), processorCount)
        <==> FlagIndex(f) < k + 1 && (f, v) in BlockTokens(blocks(f), processorCount)
  {
    var b := blocks(FlagAt(k));
    var last := BlockTokens(b, processorCount);
    FlagIndexAt(f, k);
    BlockTokensFlag(b, processorCount);
    assert (f, v) in prev + last <==> (f, v) in prev || (f, v) in last;
    if FlagIndex(f) == k {
      assert f == FlagAt(k);
    }
    if (f, v) in last {
      assert f == FlagAt(k);
    }
  }

  /** Tokens in strictly increasing flag order, so no flag twice. */
  predicate FlagOrdered(ts: seq<(Flag, string)>)
  {
    forall i, j :: 0 <= i < j < |ts| ==> FlagIndex(ts[i].0) < FlagIndex(ts[j].0)
  }

  /** When every block carries its own flag, the tokens come in strictly increasing flag order. */
  lemma {:induction false} TokensToOrdered(blocks: Flag -> Block, processorCount: int, k: nat)
    requires k <= FlagCount
    requires forall g :: blocks(g).flag == g
    ensures FlagOrdered(TokensTo(blocks, processorCount, k))
    ensures forall t :: t in TokensTo(blocks, processorCount, k) ==> FlagIndex(t.0) < k
  {
    if k > 0 {
      TokensToOrdered(blocks, processorCount, k - 1);
      BlockIndex(blocks, k - 1);
      OrderedAppend(TokensTo(blocks, processorCount, k - 1), blocks(FlagAt(k - 1)), processorCount, k - 1);
    }
  }

  /** When every block carries its own flag, the block at position k carries the flag of index k. */
  lemma BlockIndex(blocks: Flag -> Block, k: nat)
    requires k < FlagCount
    requires forall g :: blocks(g).flag == g
    ensures FlagIndex(blocks(FlagAt(k)).flag) == k
  {
    FlagIndexAt(FlagAt(k), k);
  }

  /** Ordered tokens below flag index n, followed by the tokens of a block for the flag of index n, stay ordered. */
  lemma OrderedAppend(prev: seq<(Flag, string)>, b: Block, processorCount: int, n: nat)
    requires FlagOrdered(prev) && forall t :: t in prev ==> FlagIndex(t.0) < n
    requires FlagIndex(b.flag) == n
    ensures FlagOrdered(prev + BlockTokens(b, processorCount))
    ensures forall t :: t in prev + BlockTokens(b, processorCount) ==> FlagIndex(t.0) < n + 1
  {
    var last := BlockTokens(b, processorCount);
    BlockTokensFlag(b, processorCount);
    var ts := prev + last;
    forall i, j | 0 <= i < j < |ts|
      ensures FlagIndex(ts[i].0) < FlagIndex(ts[j].0)
    {
      assert ts[i] == prev[i];
      if j >= |prev| {
        assert prev[i] in prev;
        assert ts[j] == last[j - |prev|];
        assert ts[j] in last;
      } else {
        assert ts[j] == prev[j];
      }
    }
  }

  /**
   * The argument list reads completely, and it carries a flag with value v
   * exactly when v is what is sent for that flag.
   */
  lemma ArgvCarries(options: Settings, processorCount: int, f: Flag, v: string)
    ensures Tokens(Argv(options, processorCount), ParseFlag).Some?
    ensures (f, v) in Tokens(Argv(options, processorCount), ParseFlag).value
        <==> Sent(options, processorCount, f) == Some(v)
  {
    var blocks := Blocks(options);
    assert forall g :: blocks(g) == BlockFor(options, g);
    ArgvTokens(options, processorCount);
    TokensToMembers(blocks, processorCount, FlagCount, f, v);
    BlockSent(options, processorCount, f);
  }

  /** The flags of the argument list come in the order of the blocks of `GenerateArguments`, none twice. */
  lemma ArgvOrdered(options: Settings, processorCount: int)
    ensures Tokens(Argv(options, processorCount), ParseFlag).Some?
    ensures FlagOrdered(Tokens(Argv(options, processorCount), ParseFlag).value)
  {
    var blocks := Blocks(options);
    assert forall g :: blocks(g) == BlockFor(options, g);
    ArgvTokens(options, processorCount);
    TokensToOrdered(blocks, processorCount, FlagCount);
  }

  // ---------------------------------------------------------------------------
  // The engine

  /** One process of `Run`: the parameter file written, the options in it, and the argument string. */
  datatype ProcessRun = ProcessRun(tomlFileName: string, options: Settings, arguments: string)

  /** The parameter file of task i: "<outputFolder>/<i>_Parameters.toml". */
  function TomlFileName(outputFolder: string, i: nat): string
  {
    Paths.Combine(outputFolder, IntToString(i) + "_Parameters.toml")
  }

  /** The argument string of one option record, its arguments joined by spaces. */
  function ArgumentString(options: Settings, processorCount: int): string
  {
    Join(Argv(options, processorCount), " ")
  }

  /** `ArgumentString` as a function of the options alone. */
  function ArgumentStrings(processorCount: int): Settings -> string
  {
    o => ArgumentString(o, processorCount)
  }

  /** What `Run` does for task i: its parameter file, its options and its argument string. */
  function TaskRun(outputFolder: string, tasks: seq<(string, Settings)>, arguments: Settings -> string, i: nat): ProcessRun
    requires i < |tasks|
  {
    ProcessRun(TomlFileName(outputFolder, i), tasks[i].1, arguments(tasks[i].1))
  }

  /** What `Run` does for the first k tasks, in order. */
  function TaskRuns(outputFolder: string, tasks: seq<(string, Settings)>, arguments: Settings -> string, k: nat)
    : seq<ProcessRun>
    requires k <= |tasks|
  {
    if k == 0 then []
    else TaskRuns(outputFolder, tasks, arguments, k - 1) + [TaskRun(outputFolder, tasks, arguments, k - 1)]
  }

  /** Entry i of the runs of the first k tasks is task i's run. */
  lemma {:induction false} TaskRunsIndex(outputFolder: string, tasks: seq<(string, Settings)>,
                                         arguments: Settings -> string, k: nat)
    requires k <= |tasks|
    ensures |TaskRuns(outputFolder, tasks, arguments, k)| == k
    ensures forall i :: 0 <= i < k ==>
      TaskRuns(outputFolder, tasks, arguments, k)[i] == TaskRun(outputFolder, tasks, arguments, i)
  {
    if k > 0 {
      TaskRunsIndex(outputFolder, tasks, arguments, k - 1);
    }
  }

  class EverythingRunnerEngine {
    const taskList: seq<(string, Settings)>
    const outputFolder: string
    var Arguments: Option<string>
    var StdErr: Option<string>

    constructor (taskList: seq<(string, Settings)>, outputFolder: string)
      ensures this.taskList == taskList && this.outputFolder == outputFolder
      ensures Arguments.None? && StdErr.None?
    {
      this.taskList := taskList;
      this.outputFolder := outputFolder;
      Arguments := None;
      StdErr := None;
    }

    /** `GenerateCommandsDry`: one argument string per task, in task order. */
    method GenerateCommandsDry(processorCount: int) returns (commands: seq<string>)
      ensures |commands| == |taskList|
      ensures forall i :: 0 <= i < |taskList| ==> commands[i] == ArgumentString(taskList[i].1, processorCount)
    {
      commands := [];
      for i := 0 to |taskList|
        invariant |commands| == i
        invariant forall j :: 0 <= j < i ==> commands[j] == ArgumentString(taskList[j].1, processorCount)
      {
        var arguments := GenerateArguments(taskList[i].1, processorCount);
        commands := commands + [Join(arguments, " ")];
      }
    }

    /**
     * `Run`: for every task in order, writes its options to its parameter file and
     * runs the command-line program on its argument string; `Arguments` and
     * `StdErr` end up holding those of the last task. `runProcess` stands for the
     * process, mapping an argument string to what it prints on standard error.
     */
    method Run(processorCount: int, runProcess: string -> string) returns (runs: seq<ProcessRun>)
      modifies this
      ensures |runs| == |taskList|
      ensures forall i :: 0 <= i < |taskList| ==>
        runs[i] == ProcessRun(TomlFileName(outputFolder, i), taskList[i].1, ArgumentString(taskList[i].1, processorCount))
      ensures |taskList| == 0 ==> Arguments == old(Arguments) && StdErr == old(StdErr)
      ensures |taskList| > 0 ==>
        var last := ArgumentString(taskList[|taskList| - 1].1, processorCount);
        Arguments == Some(last) && StdErr == Some(runProcess(last))
    {
      var arguments := ArgumentStrings(processorCount);
      runs := [];
      for i := 0 to |taskList|
        invariant runs == TaskRuns(outputFolder, taskList, arguments, i)
        invariant i == 0 ==> Arguments == old(Arguments) && StdErr == old(StdErr)
        invariant i > 0 ==>
          Arguments == Some(arguments(taskList[i - 1].1))
          && StdErr == Some(runProcess(arguments(taskList[i - 1].1)))
      {
        var run := RunTask(i, processorCount, runProcess);
        runs := runs + [run];
      }
      TaskRunsIndex(outputFolder, taskList, arguments, |taskList|);
    }

    /** One iteration of `Run`: the parameter file, the argument string and the process of task i. */
    method RunTask(i: nat, processorCount: int, runProcess: string -> string) returns (run: ProcessRun)
      requires i < |taskList|
      modifies this`Arguments, this`StdErr
      ensures run == ProcessRun(TomlFileName(outputFolder, i), taskList[i].1, ArgumentString(taskList[i].1, processorCount))
      ensures Arguments == Some(run.arguments) && StdErr == Some(runProcess(run.arguments))
    {
      var ok := taskList[i];
      var tomlFileName := TomlFileName(outputFolder, i);
      var arguments := GenerateArguments(ok.1, processorCount);
      var joined := Join(arguments, " ");
      Arguments := Some(joined);
      StdErr := Some(runProcess(joined));
      run := ProcessRun(tomlFileName, ok.1, joined);
    }
  }
}
