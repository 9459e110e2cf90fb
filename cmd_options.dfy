/**
 * The command-line option record shared by the command-line program and the GUI:
 * `Settings` is its value, `Options` the object whose properties `FinishSetup`
 * and `Main` assign. A null string option is `None`.
 */
module CmdOptions {
  import opened Wrappers

  datatype Settings = Settings(
    command: Option<string>,
    spritzDirectory: Option<string>,
    analysisDirectory: Option<string>,
    fastq1: Option<string>,
    fastq2: Option<string>,
    experimentType: Option<string>,
    sraAccession: Option<string>,
    threads: int,
    genomeStarIndexDirectory: Option<string>,
    genomeFasta: Option<string>,
    geneModelGtfOrGff: Option<string>,
    newGeneModelGtfOrGff: Option<string>,
    referenceVcf: Option<string>,
    reference: Option<string>,
    uniProtXml: Option<string>,
    indelFinder: Option<string>,
    proteinFastaPath: Option<string>,
    overwriteStarAlignments: bool,
    strandSpecific: bool,
    inferStrandSpecificity: bool,
    doTranscriptIsoformAnalysis: bool,
    doFusionAnalysis: bool,
    skipVariantAnalysis: bool,
    variantCallingWorkers: int)

  /** The record with every string null, every count 0 and every switch off. */
  const NoSettings: Settings := Settings(
    None, None, None, None, None, None, None, 0, None, None, None, None, None, None, None, None, None,
    false, false, false, false, false, false, 0)

  class Options {
    var Command: Option<string>
    var SpritzDirectory: Option<string>
    var AnalysisDirectory: Option<string>
    var Fastq1: Option<string>
    var Fastq2: Option<string>
    var ExperimentType: Option<string>
    var SraAccession: Option<string>
    var Threads: int
    var GenomeStarIndexDirectory: Option<string>
    var GenomeFasta: Option<string>
    var GeneModelGtfOrGff: Option<string>
    var NewGeneModelGtfOrGff: Option<string>
    var ReferenceVcf: Option<string>
    var Reference: Option<string>
    var UniProtXml: Option<string>
    var IndelFinder: Option<string>
    var ProteinFastaPath: Option<string>
    var OverwriteStarAlignments: bool
    var StrandSpecific: bool
    var InferStrandSpecificity: bool
    var DoTranscriptIsoformAnalysis: bool
    var DoFusionAnalysis: bool
    var SkipVariantAnalysis: bool
    var VariantCallingWorkers: int

    /** The current values of all properties. */
    function Snapshot(): Settings
      reads this
    {
      Settings(Command, SpritzDirectory, AnalysisDirectory, Fastq1, Fastq2, ExperimentType, SraAccession,
        Threads, GenomeStarIndexDirectory, GenomeFasta, GeneModelGtfOrGff, NewGeneModelGtfOrGff,
        ReferenceVcf, Reference, UniProtXml, IndelFinder, ProteinFastaPath, OverwriteStarAlignments,
        StrandSpecific, InferStrandSpecificity, DoTranscriptIsoformAnalysis, DoFusionAnalysis,
        SkipVariantAnalysis, VariantCallingWorkers)
    }

    /** An options object holding the given values, as the command-line parser produces one. */
    constructor (s: Settings)
      ensures Snapshot() == s
    {
      Command := s.command;
      SpritzDirectory := s.spritzDirectory;
      AnalysisDirectory := s.analysisDirectory;
      Fastq1 := s.fastq1;
      Fastq2 := s.fastq2;
      ExperimentType := s.experimentType;
      SraAccession := s.sraAccession;
      Threads := s.threads;
      GenomeStarIndexDirectory := s.genomeStarIndexDirectory;
      GenomeFasta := s.genomeFasta;
      GeneModelGtfOrGff := s.geneModelGtfOrGff;
      NewGeneModelGtfOrGff := s.newGeneModelGtfOrGff;
      ReferenceVcf := s.referenceVcf;
      Reference := s.reference;
      UniProtXml := s.uniProtXml;
      IndelFinder := s.indelFinder;
      ProteinFastaPath := s.proteinFastaPath;
      OverwriteStarAlignments := s.overwriteStarAlignments;
      StrandSpecific := s.strandSpecific;
      InferStrandSpecificity := s.inferStrandSpecificity;
      DoTranscriptIsoformAnalysis := s.doTranscriptIsoformAnalysis;
      DoFusionAnalysis := s.doFusionAnalysis;
      SkipVariantAnalysis := s.skipVariantAnalysis;
      VariantCallingWorkers := s.variantCallingWorkers;
    }
  }
}
