/**
 * The decisions of the command-line program: how the fastq lists are paired, how
 * the defaults are filled in, which flow a command selects and which option
 * combinations it refuses, and the strand protocol each quantification run uses.
 */
module SpritzCmd {
  import opened Wrappers
  import opened Strings
  import opened CmdOptions
  import Scripts
  import EnsemblDownloads
  import Rsem

  /** What `Main` throws, as `ArgumentException` or by dereferencing a null option. */
  datatype CmdError =
    | MismatchedFastqCounts
    | UnrecognizedExperimentType
    | IsoformAnalysisNeedsRna
    | LncRnaNeedsRna
    | FusionNeedsRna
    | QuantificationNeedsRna
    | UnrecognizedCommand(command: string)
    | NullCommand
    | NullUniProtXml
    | NoSecondUniProtXml
    | NullFastqs
    | NullSpritzDirectory

  /** `ExperimentType`. */
  datatype ExperimentType = RNASequencing | WholeGenomeSequencing | ExomeSequencing

  /** `ExperimentType.ToString()`. */
  function ExperimentTypeName(t: ExperimentType): string
  {
    match t
    case RNASequencing => "RNASequencing"
    case WholeGenomeSequencing => "WholeGenomeSequencing"
    case ExomeSequencing => "ExomeSequencing"
  }

  /** The `Command` constants of the flows, which are not part of this model. */
  datatype FlowCommands = FlowCommands(
    sampleSpecificProteinDb: string,
    lncRnaDiscovery: string,
    geneFusionDiscovery: string,
    transferModifications: string,
    transcriptQuantification: string)

  /**
   * The calls into code that is not part of this model: the STAR index directory
   * for a genome and gene model, the fastqs downloaded for an SRA accession, the
   * known-sites VCF downloaded for a reference, and the inferred strand protocol
   * of a set of reads.
   */
  datatype CmdTools = CmdTools(
    convertWindowsPath: string -> string,
    genomeStarIndexDirectory: (string, string) -> string,
    fastqsFromSras: string -> seq<seq<string>>,
    knownVariantSites: (Option<string>, Option<string>) -> string,
    inferStrandedness: seq<string> -> Rsem.Strandedness)

  // ---------------------------------------------------------------------------
  // Pairing the fastq lists

  /**
   * `SeparateFastqs`: null without a first list; an error when both lists are
   * given with different numbers of commas; otherwise one entry per first-list
   * path, paired with the second-list path at the position where that path first
   * occurs in the first list.
   */
  function SeparateFastqs(fastq1: Option<string>, fastq2: Option<string>): (r: Result<Option<seq<seq<string>>>, CmdError>)
    ensures fastq1.None? ==> r == Success(None)
    ensures r.Failure? <==> fastq1.Some? && fastq2.Some? && Count(fastq1.value, ',') != Count(fastq2.value, ',')
    ensures r.Failure? ==> r.error == MismatchedFastqCounts
    ensures r.Success? && fastq1.Some? ==> r.value.Some? && |r.value.value| == Count(fastq1.value, ',') + 1
    ensures r.Success? && r.value.Some? ==>
      forall i :: 0 <= i < |r.value.value| ==> |r.value.value[i]| == if fastq2.None? then 1 else 2
  {
    if fastq1.None? then Success(None)
    else if fastq2.Some? && Count(fastq1.value, ',') != Count(fastq2.value, ',') then Failure(MismatchedFastqCounts)
    else
      var fastqs1 := Split(fastq1.value, ',');
      if fastq2.None? then
        Success(Some(seq(|fastqs1|, i requires 0 <= i < |fastqs1| => [fastqs1[i]])))
      else
        var fastqs2 := Split(fastq2.value, ',');
        Success(Some(seq(|fastqs1|, i requires 0 <= i < |fastqs1| =>
          [fastqs1[i], fastqs2[IndexOf(fastqs1, fastqs1[i])]])))
  }

  /** The first path of every entry. */
  function FirstPaths(entries: seq<seq<string>>): (r: seq<string>)
    requires forall i :: 0 <= i < |entries| ==> |entries[i]| >= 1
    ensures |r| == |entries| && forall i :: 0 <= i < |r| ==> r[i] == entries[i][0]
  {
    seq(|entries|, i requires 0 <= i < |entries| => entries[i][0])
  }

  /** Without a second list, the entries are the first list's paths in order, and joining them gives it back. */
  lemma SeparateFastqsSingle(fastq1: string)
    ensures var r := SeparateFastqs(Some(fastq1), None);
      && r.Success? && r.value.Some?
      && FirstPaths(r.value.value) == Split(fastq1, ',')
      && Join(FirstPaths(r.value.value), ",") == fastq1
  {
    JoinSplit(fastq1, ',');
  }

  /**
   * With a second list, entry i holds the i-th first-list path and the second-list
   * path at that path's first position; when the first-list paths are distinct,
   * that is the i-th second-list path.
   */
  lemma SeparateFastqsPaired(fastq1: string, fastq2: string)
    requires Count(fastq1, ',') == Count(fastq2, ',')
    ensures var r := SeparateFastqs(Some(fastq1), Some(fastq2));
      var p1, p2 := Split(fastq1, ','), Split(fastq2, ',');
      && r.Success? && r.value.Some? && |r.value.value| == |p1| == |p2|
      && (forall i :: 0 <= i < |p1| ==> r.value.value[i] == [p1[i], p2[IndexOf(p1, p1[i])]])
      && ((forall i, j :: 0 <= i < j < |p1| ==> p1[i] != p1[j]) ==>
            forall i :: 0 <= i < |p1| ==> r.value.value[i] == [p1[i], p2[i]])
  {
    var p1 := Split(fastq1, ',');
    if forall i, j :: 0 <= i < j < |p1| ==> p1[i] != p1[j] {
      forall i | 0 <= i < |p1|
        ensures IndexOf(p1, p1[i]) == i
      {
      }
    }
  }

  /** A repeated first-list path takes the partner of its first occurrence: "a,a" with "b,c" never uses "c". */
  lemma SeparateFastqsRepeatedPath()
    ensures SeparateFastqs(Some("a,a"), Some("b,c")) == Success(Some([["a", "b"], ["a", "b"]]))
  {
    var p1 := Split("a,a", ',');
    var p2 := Split("b,c", ',');
    SplitConcat("a", "a", ',');
    SplitNoSeparator("a", ',');
    assert p1 == ["a", "a"];
    SplitConcat("b", "c", ',');
    SplitNoSeparator("c", ',');
    assert p2 == ["b", "c"];
    assert Count("a,a", ',') == 1 == Count("b,c", ',');
    assert IndexOf(p1, p1[0]) == 0 && IndexOf(p1, p1[1]) == 0;
    var r := SeparateFastqs(Some("a,a"), Some("b,c"));
    assert r.Success? && r.value.Some?;
    var entries := r.value.value;
    assert |entries| == 2 && entries[0] == ["a", "b"] && entries[1] == ["a", "b"];
    assert entries == [["a", "b"], ["a", "b"]];
  }

  /** An SRA accession starting with "SR" replaces the fastq lists by the downloaded reads. */
  predicate UseSraMethod(sraAccession: Option<string>)
  {
    sraAccession.Some? && StartsWith(sraAccession.value, "SR")
  }

  /** `fastqsSeparated`: the SRA reads, or the paired fastq lists (which may throw). */
  function SeparatedFastqs(s: Settings, tools: CmdTools): (r: Result<Option<seq<seq<string>>>, CmdError>)
    ensures UseSraMethod(s.sraAccession) ==> r == Success(Some(tools.fastqsFromSras(s.sraAccession.value)))
    ensures !UseSraMethod(s.sraAccession) ==> r == SeparateFastqs(s.fastq1, s.fastq2)
  {
    if UseSraMethod(s.sraAccession) then Success(Some(tools.fastqsFromSras(s.sraAccession.value)))
    else SeparateFastqs(s.fastq1, s.fastq2)
  }

  // ---------------------------------------------------------------------------
  // Defaults

  /**
   * `FinishSetup` throws (an `ArgumentNullException` from `Path.Combine`) exactly
   * when the Spritz directory is null and the reference is recognised; a null
   * reference is not recognised, like "".
   */
  predicate SetupThrows(s: Settings)
  {
    s.spritzDirectory.None? && EnsemblDownloads.RecognizeReference(s.reference.GetOr("")).Some?
  }

  /** The reference paths the Ensembl wrapper records for the options, a null option read as "". */
  function SetupPaths(s: Settings): EnsemblDownloads.ReferencePaths
  {
    EnsemblDownloads.ResolveReferencePaths(s.spritzDirectory.GetOr(""), s.reference.GetOr(""))
  }

  /**
   * The options after `FinishSetup`: each of the genome FASTA, the gene model,
   * the STAR index directory and the protein FASTA keeps its value when set and
   * otherwise takes its default; the gene model defaults to the GFF3 reference
   * path, and the STAR index directory to the one for the resolved genome and
   * gene model.
   */
  function FinishedSettings(s: Settings, tools: CmdTools): Settings
  {
    var p := SetupPaths(s);
    var genomeFasta := s.genomeFasta.GetOr(p.genomeFasta);
    var geneModel := s.geneModelGtfOrGff.GetOr(p.gff3GeneModel);
    s.(genomeFasta := Some(genomeFasta),
       geneModelGtfOrGff := Some(geneModel),
       genomeStarIndexDirectory := Some(s.genomeStarIndexDirectory.GetOr(tools.genomeStarIndexDirectory(genomeFasta, geneModel))),
       proteinFastaPath := Some(s.proteinFastaPath.GetOr(p.proteinFasta)))
  }

  /**
   * `FinishSetup` replaces only null options: a set option keeps its value, a null
   * one gets the resolved default, every other option is unchanged, and afterwards
   * all four are set.
   */
  lemma FinishSetupDefaults(s: Settings, tools: CmdTools)
    ensures var f := FinishedSettings(s, tools);
      var p := SetupPaths(s);
      && f.genomeFasta.Some? && f.geneModelGtfOrGff.Some? && f.genomeStarIndexDirectory.Some? && f.proteinFastaPath.Some?
      && (s.genomeFasta.Some? ==> f.genomeFasta == s.genomeFasta)
      && (s.genomeFasta.None? ==> f.genomeFasta == Some(p.genomeFasta))
      && (s.geneModelGtfOrGff.Some? ==> f.geneModelGtfOrGff == s.geneModelGtfOrGff)
      && (s.geneModelGtfOrGff.None? ==> f.geneModelGtfOrGff == Some(p.gff3GeneModel))
      && (s.genomeStarIndexDirectory.Some? ==> f.genomeStarIndexDirectory == s.genomeStarIndexDirectory)
      && (s.genomeStarIndexDirectory.None? ==>
            f.genomeStarIndexDirectory == Some(tools.genomeStarIndexDirectory(f.genomeFasta.value, f.geneModelGtfOrGff.value)))
      && (s.proteinFastaPath.Some? ==> f.proteinFastaPath == s.proteinFastaPath)
      && (s.proteinFastaPath.None? ==> f.proteinFastaPath == Some(p.proteinFasta))
      && f.(genomeFasta := s.genomeFasta, geneModelGtfOrGff := s.geneModelGtfOrGff,
            genomeStarIndexDirectory := s.genomeStarIndexDirectory, proteinFastaPath := s.proteinFastaPath) == s
  {
  }

  /** Filling in the defaults a second time changes nothing. */
  lemma FinishSetupIdempotent(s: Settings, tools: CmdTools)
    ensures FinishedSettings(FinishedSettings(s, tools), tools) == FinishedSettings(s, tools)
  {
  }

  /**
   * For an unrecognised or null reference `FinishSetup` does not throw, whatever
   * the Spritz directory, and every reference default is "", so nothing points
   * at a download.
   */
  lemma FinishSetupUnknownReference(s: Settings, tools: CmdTools)
    requires EnsemblDownloads.RecognizeReference(s.reference.GetOr("")).None?
    ensures !SetupThrows(s)
    ensures var f := FinishedSettings(s, tools);
      && (s.genomeFasta.None? ==> f.genomeFasta == Some(""))
      && (s.geneModelGtfOrGff.None? ==> f.geneModelGtfOrGff == Some(""))
      && (s.proteinFastaPath.None? ==> f.proteinFastaPath == Some(""))
  {
  }

  /** The download script `FinishSetup` gets: none for an unrecognised reference. */
  function ReferenceDownload(spritzDirectory: string, reference: string, tools: CmdTools): Option<Scripts.Script>
  {
    match EnsemblDownloads.RecognizeReference(reference)
    case None => None
    case Some(a) => Some(EnsemblDownloads.DownloadScript(spritzDirectory,
      EnsemblDownloads.ResolveReferencePaths(spritzDirectory, reference), a, tools.convertWindowsPath))
  }

  /**
   * `FinishSetup`: asks the Ensembl wrapper for the reference paths (never a dry
   * run, so it returns the download script for a recognised reference) and fills
   * in the null options from them.
   */
  method FinishSetup(options: Options, tools: CmdTools) returns (outcome: Result<Option<Scripts.Script>, CmdError>)
    modifies options
    ensures SetupThrows(old(options.Snapshot())) ==>
      outcome == Failure(NullSpritzDirectory) && options.Snapshot() == old(options.Snapshot())
    ensures !SetupThrows(old(options.Snapshot())) ==>
      && options.Snapshot() == FinishedSettings(old(options.Snapshot()), tools)
      && outcome == Success(ReferenceDownload(old(options.SpritzDirectory.GetOr("")), old(options.Reference.GetOr("")), tools))
  {
    var reference := options.Reference.GetOr("");
    if options.SpritzDirectory.None? && EnsemblDownloads.RecognizeReference(reference).Some? {
      return Failure(NullSpritzDirectory);
    }
    var p, download := DownloadReferences(options.SpritzDirectory.GetOr(""), reference, tools);
    var genomeFasta := options.GenomeFasta.GetOr(p.genomeFasta);
    var geneModel := options.GeneModelGtfOrGff.GetOr(p.gff3GeneModel);
    var starIndex := options.GenomeStarIndexDirectory.GetOr(tools.genomeStarIndexDirectory(genomeFasta, geneModel));
    var proteinFasta := options.ProteinFastaPath.GetOr(p.proteinFasta);
    SetReferenceOptions(options, genomeFasta, geneModel, starIndex, proteinFasta);
    outcome := Success(download);
  }

  /** The assignments of `FinishSetup`; nothing else in the options changes. */
  method SetReferenceOptions(options: Options, genomeFasta: string, geneModel: string, starIndex: string,
                             proteinFasta: string)
    modifies options
    ensures options.Snapshot() == old(options.Snapshot()).(genomeFasta := Some(genomeFasta),
      geneModelGtfOrGff := Some(geneModel), genomeStarIndexDirectory := Some(starIndex),
      proteinFastaPath := Some(proteinFasta))
  {
    options.GenomeFasta := Some(genomeFasta);
    options.GeneModelGtfOrGff := Some(geneModel);
    options.GenomeStarIndexDirectory := Some(starIndex);
    options.ProteinFastaPath := Some(proteinFasta);
  }

  /** The first step of `FinishSetup`: a new Ensembl wrapper's reference paths and download script, never on a dry run. */
  method DownloadReferences(spritzDirectory: string, reference: string, tools: CmdTools)
    returns (p: EnsemblDownloads.ReferencePaths, download: Option<Scripts.Script>)
    ensures p == EnsemblDownloads.ResolveReferencePaths(spritzDirectory, reference)
    ensures download == ReferenceDownload(spritzDirectory, reference, tools)
  {
    var downloadsWrapper := new EnsemblDownloads.EnsemblDownloadsWrapper();
    download := downloadsWrapper.DownloadReferences(spritzDirectory, spritzDirectory, reference, false,
                                                    tools.convertWindowsPath);
    p := EnsemblDownloads.ReferencePaths(downloadsWrapper.GenomeFastaPath.value, downloadsWrapper.GtfGeneModelPath.value,
                                         downloadsWrapper.Gff3GeneModelPath.value, downloadsWrapper.ProteinFastaPath.value);
  }

  // ---------------------------------------------------------------------------
  // Commands and the checks made on them

  /** The flow a command selects. */
  datatype Route = ProteinDatabaseRoute | LncRnaRoute | FusionRoute | TransferRoute | QuantificationRoute | StrandednessRoute

  /**
   * The command comparisons of `Main`, in order: the protein-database, lncRNA,
   * fusion and quantification commands ignore letter case, the transfer command
   * and "strandedness" do not.
   */
  function Dispatch(command: string, names: FlowCommands): (r: Result<Route, CmdError>)
    ensures r.Failure? ==> r.error == UnrecognizedCommand(command)
  {
    if EqualsIgnoreCase(command, names.sampleSpecificProteinDb) then Success(ProteinDatabaseRoute)
    else if EqualsIgnoreCase(command, names.lncRnaDiscovery) then Success(LncRnaRoute)
    else if EqualsIgnoreCase(command, names.geneFusionDiscovery) then Success(FusionRoute)
    else if command == names.transferModifications then Success(TransferRoute)
    else if EqualsIgnoreCase(command, names.transcriptQuantification) then Success(QuantificationRoute)
    else if command == "strandedness" then Success(StrandednessRoute)
    else Failure(UnrecognizedCommand(command))
  }

  /** A command is refused exactly when it matches none of the flows. */
  lemma DispatchRecognized(command: string, names: FlowCommands)
    ensures Dispatch(command, names).Failure? <==>
      !EqualsIgnoreCase(command, names.sampleSpecificProteinDb) && !EqualsIgnoreCase(command, names.lncRnaDiscovery)
      && !EqualsIgnoreCase(command, names.geneFusionDiscovery) && command != names.transferModifications
      && !EqualsIgnoreCase(command, names.transcriptQuantification) && command != "strandedness"
  {
  }

  /** The case-insensitive commands are recognised in any letter case; "Strandedness" is not "strandedness". */
  lemma DispatchLetterCase(command: string, names: FlowCommands)
    requires EqualsIgnoreCase(command, names.sampleSpecificProteinDb)
    ensures Dispatch(command, names) == Success(ProteinDatabaseRoute)
    ensures Dispatch("Strandedness", FlowCommands("proteins", "lncRNA", "fusion", "transfer", "quant")).Failure?
  {
    var other := FlowCommands("proteins", "lncRNA", "fusion", "transfer", "quant");
    assert !EqualsIgnoreCase("Strandedness", other.sampleSpecificProteinDb);
    assert !EqualsIgnoreCase("Strandedness", other.lncRnaDiscovery);
    assert !EqualsIgnoreCase("Strandedness", other.geneFusionDiscovery);
    assert !EqualsIgnoreCase("Strandedness", other.transcriptQuantification);
    assert "Strandedness"[0] != "strandedness"[0];
  }

  /** The experiment type of the protein-database flow: one of the three names exactly, or an error. */
  function ParseExperimentType(experimentType: Option<string>): (r: Result<ExperimentType, CmdError>)
    ensures r.Success? ==> experimentType == Some(ExperimentTypeName(r.value))
    ensures r.Failure? ==> r.error == UnrecognizedExperimentType
  {
    if experimentType == Some("RNASequencing") then Success(RNASequencing)
    else if experimentType == Some("WholeGenomeSequencing") then Success(WholeGenomeSequencing)
    else if experimentType == Some("ExomeSequencing") then Success(ExomeSequencing)
    else Failure(UnrecognizedExperimentType)
  }

  /** Every experiment type's own name parses back to it, so only those three names are accepted. */
  lemma ExperimentTypeRoundTrip(t: ExperimentType)
    ensures ParseExperimentType(Some(ExperimentTypeName(t))) == Success(t)
  {
    assert "RNASequencing"[0] != "WholeGenomeSequencing"[0] && "RNASequencing"[0] != "ExomeSequencing"[0];
    assert "WholeGenomeSequencing"[0] != "ExomeSequencing"[0];
  }

  /** A null experiment type, or a letter-case variant of a name, is refused. */
  lemma ExperimentTypeExact()
    ensures ParseExperimentType(None).Failure?
    ensures ParseExperimentType(Some("rnasequencing")).Failure?
  {
    assert "rnasequencing"[0] != "RNASequencing"[0];
    assert |"rnasequencing"| != |"WholeGenomeSequencing"|;
    assert |"rnasequencing"| != |"ExomeSequencing"|;
  }

  /** The RNA-only flows accept a null experiment type or exactly "RNASequencing". */
  predicate AcceptsRnaOnly(experimentType: Option<string>)
  {
    experimentType.None? || experimentType.value == "RNASequencing"
  }

  // ---------------------------------------------------------------------------
  // Quantification runs

  /** One `TranscriptQuantificationFlow` run: its reads, the aligner and the strand protocol. */
  datatype QuantificationRun = QuantificationRun(
    fastqs: seq<string>, aligner: Rsem.AlignerOption, strandedness: Rsem.Strandedness)

  /** The strand protocol of one run: inferred when asked to, else forward iff strand-specific. */
  function RunStrandedness(fastqs: seq<string>, strandSpecific: bool, inferStrandSpecificity: bool,
                           tools: CmdTools): (r: Rsem.Strandedness)
    ensures inferStrandSpecificity ==> r == tools.inferStrandedness(fastqs)
    ensures !inferStrandSpecificity ==> (r == Rsem.Strandedness.Forward <==> strandSpecific)
    ensures !inferStrandSpecificity ==> (r == Rsem.Strandedness.None <==> !strandSpecific)
  {
    if inferStrandSpecificity then tools.inferStrandedness(fastqs)
    else if strandSpecific then Rsem.Strandedness.Forward
    else Rsem.Strandedness.None
  }

  /** The runs, one per fastq entry in order, each with STAR and its own strand protocol. */
  function QuantificationRuns(entries: seq<seq<string>>, strandSpecific: bool, inferStrandSpecificity: bool,
                              tools: CmdTools): (r: seq<QuantificationRun>)
    ensures |r| == |entries|
    ensures forall i :: 0 <= i < |r| ==> r[i].fastqs == entries[i] && r[i].aligner == Rsem.STAR
  {
    if |entries| == 0 then []
    else
      var last := entries[|entries| - 1];
      QuantificationRuns(entries[..|entries| - 1], strandSpecific, inferStrandSpecificity, tools)
        + [QuantificationRun(last, Rsem.STAR, RunStrandedness(last, strandSpecific, inferStrandSpecificity, tools))]
  }

  /** Each run's strand protocol is decided from its own reads and the two switches alone. */
  lemma {:induction false} QuantificationRunsStrandedness(entries: seq<seq<string>>, strandSpecific: bool,
                                                          inferStrandSpecificity: bool, tools: CmdTools)
    ensures var r := QuantificationRuns(entries, strandSpecific, inferStrandSpecificity, tools);
      forall i :: 0 <= i < |r| ==>
        r[i].strandedness == RunStrandedness(entries[i], strandSpecific, inferStrandSpecificity, tools)
  {
    if |entries| > 0 {
      QuantificationRunsStrandedness(entries[..|entries| - 1], strandSpecific, inferStrandSpecificity, tools);
    }
  }

  /** The quantification loop of `Main`, one run per fastq entry. */
  method QuantifyAll(entries: seq<seq<string>>, strandSpecific: bool, inferStrandSpecificity: bool,
                     tools: CmdTools) returns (runs: seq<QuantificationRun>)
    ensures runs == QuantificationRuns(entries, strandSpecific, inferStrandSpecificity, tools)
  {
    runs := [];
    for i := 0 to |entries|
      invariant runs == QuantificationRuns(entries[..i], strandSpecific, inferStrandSpecificity, tools)
    {
      var strandedness := if strandSpecific then Rsem.Strandedness.Forward else Rsem.Strandedness.None;
      if inferStrandSpecificity {
        strandedness := tools.inferStrandedness(entries[i]);
      }
      assert entries[..i + 1][..i] == entries[..i];
      runs := runs + [QuantificationRun(entries[i], Rsem.STAR, strandedness)];
    }
    assert entries[..|entries|] == entries;
  }

  // ---------------------------------------------------------------------------
  // Main

  /** What `Main` goes on to run after its checks. */
  datatype Plan =
    | ProteinDatabase(experimentType: ExperimentType, fastqs: Option<seq<seq<string>>>)
    | LncRnaDiscovery(fastqs: Option<seq<seq<string>>>)
    | GeneFusionDiscovery(fastqs: Option<seq<seq<string>>>)
    | TransferModifications(sourceXml: string, targetXml: string)
    | Quantification(runs: seq<QuantificationRun>)
    | StrandednessReport(readPaths: seq<Option<string>>)

  /**
   * The outcome of `Main` once the defaults are filled in: the fastq lists are
   * separated before the command is looked at, then the selected flow's checks
   * are made in the order of the code.
   */
  function Decide(s: Settings, names: FlowCommands, tools: CmdTools): Result<Plan, CmdError>
  {
    var fastqs := SeparatedFastqs(s, tools);
    if fastqs.Failure? then Failure(fastqs.error)
    else if s.command.None? then Failure(NullCommand)
    else DecideCommand(s, fastqs.value, names, tools)
  }

  /** The checks of the flow the command selects, given the separated fastqs. */
  function DecideCommand(s: Settings, fastqs: Option<seq<seq<string>>>, names: FlowCommands, tools: CmdTools)
    : Result<Plan, CmdError>
    requires s.command.Some?
  {
    match Dispatch(s.command.value, names)
    case Failure(e) => Failure(e)
    case Success(ProteinDatabaseRoute) => DecideProteinDatabase(s, fastqs)
    case Success(LncRnaRoute) =>
      if AcceptsRnaOnly(s.experimentType) then Success(LncRnaDiscovery(fastqs)) else Failure(LncRnaNeedsRna)
    case Success(FusionRoute) =>
      if AcceptsRnaOnly(s.experimentType) then Success(GeneFusionDiscovery(fastqs)) else Failure(FusionNeedsRna)
    case Success(TransferRoute) => DecideTransfer(s.uniProtXml)
    case Success(QuantificationRoute) =>
      if !AcceptsRnaOnly(s.experimentType) then Failure(QuantificationNeedsRna)
      else if fastqs.None? then Failure(NullFastqs)
      else Success(Quantification(QuantificationRuns(fastqs.value, s.strandSpecific, s.inferStrandSpecificity, tools)))
    case Success(StrandednessRoute) =>
      Success(StrandednessReport(if s.fastq2.None? then [s.fastq1] else [s.fastq1, s.fastq2]))
  }

  /** The protein-database flow: a recognised experiment type, and isoform analysis only for RNA sequencing. */
  function DecideProteinDatabase(s: Settings, fastqs: Option<seq<seq<string>>>): Result<Plan, CmdError>
  {
    match ParseExperimentType(s.experimentType)
    case Failure(e) => Failure(e)
    case Success(t) =>
      if s.doTranscriptIsoformAnalysis && t != RNASequencing then Failure(IsoformAnalysisNeedsRna)
      else Success(ProteinDatabase(t, fastqs))
  }

  /** The transfer flow: the first two comma-separated UniProt XML paths. */
  function DecideTransfer(uniProtXml: Option<string>): Result<Plan, CmdError>
  {
    if uniProtXml.None? then Failure(NullUniProtXml)
    else
      var xmls := Split(uniProtXml.value, ',');
      if |xmls| < 2 then Failure(NoSecondUniProtXml) else Success(TransferModifications(xmls[0], xmls[1]))
  }

  /** Mismatched fastq lists are refused before the command is read, whatever the command. */
  lemma DecideFastqsFirst(s: Settings, names: FlowCommands, tools: CmdTools)
    requires !UseSraMethod(s.sraAccession) && s.fastq1.Some? && s.fastq2.Some?
    requires Count(s.fastq1.value, ',') != Count(s.fastq2.value, ',')
    ensures Decide(s, names, tools) == Failure(MismatchedFastqCounts)
  {
  }

  /** Downloaded SRA reads are never refused for mismatched lists. */
  lemma DecideSraReads(s: Settings, names: FlowCommands, tools: CmdTools)
    requires UseSraMethod(s.sraAccession)
    ensures Decide(s, names, tools) != Failure(MismatchedFastqCounts)
  {
  }

  /** An unrecognised command is an error naming it, once the fastq lists are fine. */
  lemma DecideUnrecognized(s: Settings, names: FlowCommands, tools: CmdTools)
    requires SeparatedFastqs(s, tools).Success? && s.command.Some?
    ensures Dispatch(s.command.value, names).Failure? <==>
      Decide(s, names, tools) == Failure(UnrecognizedCommand(s.command.value))
  {
  }

  /**
   * The protein-database flow runs exactly when the experiment type is one of the
   * three names and isoform analysis is asked for only with RNA sequencing.
   */
  lemma ProteinDatabaseChecks(s: Settings, names: FlowCommands, tools: CmdTools)
    requires SeparatedFastqs(s, tools).Success? && s.command.Some?
    requires Dispatch(s.command.value, names) == Success(ProteinDatabaseRoute)
    ensures Decide(s, names, tools).Success? <==>
      (exists t :: s.experimentType == Some(ExperimentTypeName(t))
                && (s.doTranscriptIsoformAnalysis ==> t == RNASequencing))
    ensures Decide(s, names, tools).Success? ==>
      Decide(s, names, tools) == Success(ProteinDatabase(ParseExperimentType(s.experimentType).value,
                                                         SeparatedFastqs(s, tools).value))
  {
    var r := ParseExperimentType(s.experimentType);
    if r.Success? {
      assert s.experimentType == Some(ExperimentTypeName(r.value));
    } else {
      forall t | s.experimentType == Some(ExperimentTypeName(t))
        ensures false
      {
        ExperimentTypeRoundTrip(t);
      }
    }
  }

  /** The lncRNA, fusion and quantification flows refuse a set experiment type other than "RNASequencing", and no other. */
  lemma DecideRnaOnly(s: Settings, names: FlowCommands, tools: CmdTools)
    requires SeparatedFastqs(s, tools).Success? && s.command.Some?
    ensures Dispatch(s.command.value, names) == Success(LncRnaRoute) ==>
      (Decide(s, names, tools).Failure? <==> !AcceptsRnaOnly(s.experimentType))
    ensures Dispatch(s.command.value, names) == Success(FusionRoute) ==>
      (Decide(s, names, tools).Failure? <==> !AcceptsRnaOnly(s.experimentType))
    ensures Dispatch(s.command.value, names) == Success(QuantificationRoute) ==>
      (Decide(s, names, tools).Failure? <==>
         !AcceptsRnaOnly(s.experimentType) || SeparatedFastqs(s, tools).value.None?)
  {
  }

  /** Each quantification run uses STAR and the strand protocol of its own reads. */
  lemma DecideQuantification(s: Settings, names: FlowCommands, tools: CmdTools)
    requires Decide(s, names, tools).Success? && Decide(s, names, tools).value.Quantification?
    ensures var entries := SeparatedFastqs(s, tools).value.value;
      var runs := Decide(s, names, tools).value.runs;
      && |runs| == |entries|
      && forall i :: 0 <= i < |runs| ==>
           runs[i] == QuantificationRun(entries[i], Rsem.STAR,
                        RunStrandedness(entries[i], s.strandSpecific, s.inferStrandSpecificity, tools))
  {
    var entries := SeparatedFastqs(s, tools).value.value;
    QuantificationRunsStrandedness(entries, s.strandSpecific, s.inferStrandSpecificity, tools);
  }

  /** The transfer flow takes the first two comma-separated UniProt XML paths and needs at least two. */
  lemma TransferChecks(s: Settings, names: FlowCommands, tools: CmdTools)
    requires SeparatedFastqs(s, tools).Success? && s.command.Some?
    requires Dispatch(s.command.value, names) == Success(TransferRoute)
    ensures s.uniProtXml.None? ==> Decide(s, names, tools) == Failure(NullUniProtXml)
    ensures s.uniProtXml.Some? && Count(s.uniProtXml.value, ',') == 0 ==>
      Decide(s, names, tools) == Failure(NoSecondUniProtXml)
    ensures s.uniProtXml.Some? && Count(s.uniProtXml.value, ',') > 0 ==>
      var xmls := Split(s.uniProtXml.value, ',');
      Decide(s, names, tools) == Success(TransferModifications(xmls[0], xmls[1]))
  {
  }

  /** The options after `Main`: the defaults, and for the protein-database flow a downloaded VCF when none was set. */
  function MainSettings(s: Settings, names: FlowCommands, tools: CmdTools): Settings
  {
    if SeparatedFastqs(s, tools).Success? && s.command.Some? then CommandSettings(s, names, tools) else s
  }

  /** The options after the command's branch: a downloaded VCF for the protein-database flow when none was set. */
  function CommandSettings(s: Settings, names: FlowCommands, tools: CmdTools): Settings
    requires s.command.Some?
  {
    if Dispatch(s.command.value, names) == Success(ProteinDatabaseRoute) && s.referenceVcf.None?
    then s.(referenceVcf := Some(tools.knownVariantSites(s.spritzDirectory, s.reference)))
    else s
  }

  /**
   * `Main` (here `SpritzMain`) after the command line is parsed: fills in the
   * defaults (or throws for a recognised reference without a Spritz directory),
   * separates the fastqs, and makes the checks of the selected flow; the flow
   * itself is what it returns.
   */
  method SpritzMain(options: Options, names: FlowCommands, tools: CmdTools)
    returns (download: Option<Scripts.Script>, r: Result<Plan, CmdError>)
    modifies options
    ensures SetupThrows(old(options.Snapshot())) ==>
      && download.None? && r == Failure(NullSpritzDirectory) && options.Snapshot() == old(options.Snapshot())
    ensures !SetupThrows(old(options.Snapshot())) ==>
      && download == ReferenceDownload(old(options.SpritzDirectory.GetOr("")), old(options.Reference.GetOr("")), tools)
      && r == Decide(FinishedSettings(old(options.Snapshot()), tools), names, tools)
      && options.Snapshot() == MainSettings(FinishedSettings(old(options.Snapshot()), tools), names, tools)
  {
    var setup := FinishSetup(options, tools);
    if setup.Failure? {
      return None, Failure(setup.error);
    }
    download := setup.value;
    var fastqsSeparated: Option<seq<seq<string>>>;
    if UseSraMethod(options.SraAccession) {
      fastqsSeparated := Some(tools.fastqsFromSras(options.SraAccession.value));
    } else {
      var separated := SeparateFastqs(options.Fastq1, options.Fastq2);
      if separated.Failure? {
        return download, Failure(separated.error);
      }
      fastqsSeparated := separated.value;
    }
    if options.Command.None? {
      return download, Failure(NullCommand);
    }
    r := RunCommand(options, fastqsSeparated, names, tools);
  }

  /** The command branches of `Main`, in the order of the code. */
  method RunCommand(options: Options, fastqsSeparated: Option<seq<seq<string>>>, names: FlowCommands, tools: CmdTools)
    returns (r: Result<Plan, CmdError>)
    requires options.Command.Some?
    modifies options
    ensures r == DecideCommand(old(options.Snapshot()), fastqsSeparated, names, tools)
    ensures options.Snapshot() == CommandSettings(old(options.Snapshot()), names, tools)
  {
    var command := options.Command.value;
    if EqualsIgnoreCase(command, names.sampleSpecificProteinDb) {
      if options.ReferenceVcf.None? {
        options.ReferenceVcf := Some(tools.knownVariantSites(options.SpritzDirectory, options.Reference));
      }
      r := ProteinDatabaseCommand(options, fastqsSeparated);
    } else if EqualsIgnoreCase(command, names.lncRnaDiscovery) {
      if options.ExperimentType.Some? && options.ExperimentType.value != "RNASequencing" {
        return Failure(LncRnaNeedsRna);
      }
      r := Success(LncRnaDiscovery(fastqsSeparated));
    } else if EqualsIgnoreCase(command, names.geneFusionDiscovery) {
      if options.ExperimentType.Some? && options.ExperimentType.value != "RNASequencing" {
        return Failure(FusionNeedsRna);
      }
      r := Success(GeneFusionDiscovery(fastqsSeparated));
    } else if command == names.transferModifications {
      if options.UniProtXml.None? {
        return Failure(NullUniProtXml);
      }
      var xmls := Split(options.UniProtXml.value, ',');
      if |xmls| < 2 {
        return Failure(NoSecondUniProtXml);
      }
      r := Success(TransferModifications(xmls[0], xmls[1]));
    } else if EqualsIgnoreCase(command, names.transcriptQuantification) {
      if options.ExperimentType.Some? && options.ExperimentType.value != "RNASequencing" {
        return Failure(QuantificationNeedsRna);
      }
      if fastqsSeparated.None? {
        return Failure(NullFastqs);
      }
      var runs := QuantifyAll(fastqsSeparated.value, options.StrandSpecific, options.InferStrandSpecificity, tools);
      r := Success(Quantification(runs));
    } else if command == "strandedness" {
      var fastqs := if options.Fastq2.None? then [options.Fastq1] else [options.Fastq1, options.Fastq2];
      r := Success(StrandednessReport(fastqs));
    } else {
      r := Failure(UnrecognizedCommand(command));
    }
  }

  /** The experiment-type parse and the isoform check of the protein-database branch. */
  method ProteinDatabaseCommand(options: Options, fastqsSeparated: Option<seq<seq<string>>>)
    returns (r: Result<Plan, CmdError>)
    ensures r == DecideProteinDatabase(options.Snapshot(), fastqsSeparated)
  {
    var experimentType: ExperimentType;
    if options.ExperimentType == Some("RNASequencing") {
      experimentType := RNASequencing;
    } else if options.ExperimentType == Some("WholeGenomeSequencing") {
      experimentType := WholeGenomeSequencing;
    } else if options.ExperimentType == Some("ExomeSequencing") {
      experimentType := ExomeSequencing;
    } else {
      return Failure(UnrecognizedExperimentType);
    }
    if options.DoTranscriptIsoformAnalysis && experimentType != RNASequencing {
      return Failure(IsoformAnalysisNeedsRna);
    }
    r := Success(ProteinDatabase(experimentType, fastqsSeparated));
  }
}
