/**
 * The RSEM wrapper: the option strings `rsem-prepare-reference` and
 * `rsem-calculate-expression` are given, the checks made before they are built,
 * and the reference and output prefixes the wrapper records.
 */
module Rsem {
  import Wrappers
  import opened Strings
  import opened Paths

  /** `RSEMAlignerOption`. */
  datatype AlignerOption = STAR | Bowtie1 | Bowtie2

  /** The library strand protocol, `Strandedness`. */
  datatype Strandedness = None | Forward | Reverse

  /** What the wrapper throws: `ArgumentOutOfRangeException` (twice) or `NotSupportedException`. */
  datatype RsemError = NoFastqs | TooManyFastqs | UnsupportedAligner

  /** The helpers of other wrappers the RSEM commands call, which are not part of this model. */
  datatype RsemTools = RsemTools(
    convertWindowsPath: string -> string,
    starDirectory: string -> string,
    bowtie2Directory: string -> string,
    hashCode: string -> int,
    sortBam: (string, string) -> string,
    indexBam: (string, string) -> string)

  const IsoformResultsSuffix: string := ".isoforms.results"
  const GeneResultsSuffix: string := ".genes.results"
  const TranscriptBamSuffix: string := ".transcript.bam"
  const GenomeBamSuffix: string := ".genome.bam"
  const GenomeSortedBamSuffix: string := ".genome.sorted.bam"
  const GenomeSortedBamIndexSuffix: string := ".genome.sorted.bam.bai"
  const TimeSuffix: string := ".time"
  const StatDirectorySuffix: string := ".stat"

  /** `ToString()` of a strandedness value. */
  function EnumName(s: Strandedness): string
  {
    match s
    case None => "None"
    case Forward => "Forward"
    case Reverse => "Reverse"
  }

  /** `ToLowerInvariant()` on ASCII text. */
  function LowerString(s: string): (r: string)
    ensures |r| == |s| && forall i :: 0 <= i < |s| ==> r[i] == ToLower(s[i])
  {
    seq(|s|, i requires 0 <= i < |s| => ToLower(s[i]))
  }

  /** "--strandedness " followed by the lower-cased enumeration name. */
  function StrandednessOption(s: Strandedness): string
  {
    "--strandedness " + LowerString(EnumName(s))
  }

  /** The three strandedness values give RSEM's three spellings. */
  lemma StrandednessOptionValues()
    ensures StrandednessOption(None) == "--strandedness none"
    ensures StrandednessOption(Forward) == "--strandedness forward"
    ensures StrandednessOption(Reverse) == "--strandedness reverse"
  {
    assert LowerString("None") == "none";
    assert LowerString("Forward") == "forward";
    assert LowerString("Reverse") == "reverse";
  }

  /**
   * `GetAlignerOption`: Bowtie1 is refused; STAR and Bowtie2 name their aligner
   * and the directory it is installed in.
   */
  function GetAlignerOption(spritzDirectory: string, aligner: AlignerOption, tools: RsemTools)
    : (r: Wrappers.Result<string, RsemError>)
    ensures r.Failure? <==> aligner == Bowtie1
    ensures r.Failure? ==> r.error == UnsupportedAligner
    ensures aligner == STAR ==>
      r == Wrappers.Success("--star --star-path " + tools.convertWindowsPath(tools.starDirectory(spritzDirectory)))
    ensures aligner == Bowtie2 ==>
      r == Wrappers.Success("--bowtie2 --bowtie2-path " + tools.convertWindowsPath(tools.bowtie2Directory(spritzDirectory)))
  {
    match aligner
    case Bowtie1 => Wrappers.Failure(UnsupportedAligner)
    case STAR => Wrappers.Success("--star --star-path " + tools.convertWindowsPath(tools.starDirectory(spritzDirectory)))
    case Bowtie2 =>
      Wrappers.Success("--bowtie2 --bowtie2-path " + tools.convertWindowsPath(tools.bowtie2Directory(spritzDirectory)))
  }

  /** The gene-model option of `rsem-prepare-reference`, or null. */
  function GeneModelOption(geneModelPath: string, convertWindowsPath: string -> string): Wrappers.Option<string>
  {
    if StartsWith(GetExtension(geneModelPath), ".gff") then Wrappers.Some("--gff3 " + convertWindowsPath(geneModelPath))
    else if GetExtension(geneModelPath) == ".gtf" then Wrappers.Some("--gtf " + convertWindowsPath(geneModelPath))
    else Wrappers.None
  }

  /**
   * A ".gff…" extension (".gff", ".gff3" and so on) selects GFF3 input, exactly
   * ".gtf" selects GTF input, and any other extension gives no option at all.
   */
  lemma GeneModelOptionCases(geneModelPath: string, convertWindowsPath: string -> string)
    ensures var ext := GetExtension(geneModelPath);
      var r := GeneModelOption(geneModelPath, convertWindowsPath);
      && (StartsWith(ext, ".gff") <==> r == Wrappers.Some("--gff3 " + convertWindowsPath(geneModelPath)))
      && (ext == ".gtf" <==> r == Wrappers.Some("--gtf " + convertWindowsPath(geneModelPath)))
      && (r.None? <==> !StartsWith(ext, ".gff") && ext != ".gtf")
  {
    GeneModelOptionsDiffer(convertWindowsPath(geneModelPath));
    GtfIsNotGff(GetExtension(geneModelPath));
  }

  /** The GFF3 and the GTF option never coincide. */
  lemma GeneModelOptionsDiffer(path: string)
    ensures "--gff3 " + path != "--gtf " + path
  {
    assert ("--gff3 " + path)[3] != ("--gtf " + path)[3];
  }

  /** ".gtf" does not begin with ".gff". */
  lemma GtfIsNotGff(ext: string)
    ensures ext == ".gtf" ==> !StartsWith(ext, ".gff")
  {
    if ext == ".gtf" {
      assert ext[2] != ".gff"[2];
    }
  }

  /** The directory the RSEM reference goes into, beside the genome FASTA. */
  function ReferencePrefixDirectory(referenceFastaPath: string, aligner: AlignerOption, geneModelPath: string,
                                    tools: RsemTools): string
  {
    Combine(GetDirectoryName(referenceFastaPath), GetFileNameWithoutExtension(referenceFastaPath))
    + (if aligner == STAR then "RsemStarReference" else "RsemBowtieReference")
    + "_GeneModel" + IntToString(tools.hashCode(geneModelPath))
  }

  /**
   * The reference directory is named after the genome FASTA, the aligner family
   * (STAR, or Bowtie for the others) and the gene model's hash.
   */
  lemma ReferencePrefixDirectoryName(referenceFastaPath: string, aligner: AlignerOption, geneModelPath: string,
                                     tools: RsemTools)
    requires SimpleDir(referenceFastaPath) && GetFileNameWithoutExtension(referenceFastaPath) != ""
    ensures var family := if aligner == STAR then "RsemStarReference" else "RsemBowtieReference";
      ReferencePrefixDirectory(referenceFastaPath, aligner, geneModelPath, tools)
      == DirPrefix(referenceFastaPath) + GetFileNameWithoutExtension(referenceFastaPath) + family
         + "_GeneModel" + IntToString(tools.hashCode(geneModelPath))
  {
    SiblingStem(referenceFastaPath);
  }

  /** Each comma-separated path run through the path converter, joined by commas again. */
  function ConvertedList(fastqs: string, convertWindowsPath: string -> string): string
  {
    var parts := Split(fastqs, ',');
    Join(seq(|parts|, i requires 0 <= i < |parts| => convertWindowsPath(parts[i])), ",")
  }

  /** The converter leaves no comma in a path it converts. */
  ghost predicate CommaFree(convertWindowsPath: string -> string)
  {
    forall p :: ',' !in convertWindowsPath(p)
  }

  /** With a comma-free converter, the list splits back into the converted paths. */
  lemma ConvertedListSplits(fastqs: string, convertWindowsPath: string -> string)
    requires CommaFree(convertWindowsPath)
    ensures var parts := Split(fastqs, ',');
      Split(ConvertedList(fastqs, convertWindowsPath), ',')
      == seq(|parts|, i requires 0 <= i < |parts| => convertWindowsPath(parts[i]))
  {
    var parts := Split(fastqs, ',');
    var converted := seq(|parts|, i requires 0 <= i < |parts| => convertWindowsPath(parts[i]));
    assert forall i :: 0 <= i < |converted| ==> ',' !in converted[i];
    SplitJoin(converted, ',');
  }

  /** The read-input option: one list, or "--paired-end" and two lists. */
  function InputOption(fastqPaths: seq<string>, convertWindowsPath: string -> string): string
    requires 1 <= |fastqPaths| <= 2
  {
    if |fastqPaths| == 1 then ConvertedList(fastqPaths[0], convertWindowsPath)
    else "--paired-end " + ConvertedList(fastqPaths[0], convertWindowsPath)
         + " " + ConvertedList(fastqPaths[1], convertWindowsPath)
  }

  /**
   * Paired input is marked "--paired-end" and single input is not, provided the
   * converted single list does not itself begin with that text.
   */
  lemma InputOptionPaired(fastqPaths: seq<string>, convertWindowsPath: string -> string)
    requires 1 <= |fastqPaths| <= 2
    requires !StartsWith(ConvertedList(fastqPaths[0], convertWindowsPath), "--paired-end ")
    ensures StartsWith(InputOption(fastqPaths, convertWindowsPath), "--paired-end ") <==> |fastqPaths| == 2
  {
    if |fastqPaths| == 2 {
      var r := InputOption(fastqPaths, convertWindowsPath);
      var rest := ConvertedList(fastqPaths[0], convertWindowsPath) + " " + ConvertedList(fastqPaths[1], convertWindowsPath);
      assert r == "--paired-end " + rest;
      assert r[..|"--paired-end "|] == "--paired-end ";
    }
  }

  /** Whether the first fastq path ends in a bzip2 suffix. */
  predicate IsBunzipped(fastq: string)
  {
    EndsWith(fastq, ".bz2") || EndsWith(fastq, ".bz") || EndsWith(fastq, ".tbz") || EndsWith(fastq, ".tbz2")
  }

  /** The read-compression option, decided by the first fastq path alone and only for STAR. */
  function CompressionOption(firstFastq: string, aligner: AlignerOption): string
  {
    if EndsWith(firstFastq, ".gz") && aligner == STAR then "--star-gzipped-read-file"
    else if IsBunzipped(firstFastq) && aligner == STAR then "--star-bzipped-read-file"
    else ""
  }

  /**
   * STAR reads a ".gz" input gunzipped and a ".bz2", ".bz", ".tbz" or ".tbz2"
   * input bunzipped; any other input, and any other aligner, gives no option.
   */
  lemma CompressionOptionCases(firstFastq: string, aligner: AlignerOption)
    ensures CompressionOption(firstFastq, aligner) == "--star-gzipped-read-file"
      <==> EndsWith(firstFastq, ".gz") && aligner == STAR
    ensures CompressionOption(firstFastq, aligner) == "--star-bzipped-read-file"
      <==> !EndsWith(firstFastq, ".gz") && IsBunzipped(firstFastq) && aligner == STAR
    ensures CompressionOption(firstFastq, aligner) == ""
      <==> aligner != STAR || (!EndsWith(firstFastq, ".gz") && !IsBunzipped(firstFastq))
  {
    var gz, bz := "--star-gzipped-read-file", "--star-bzipped-read-file";
    assert gz[7] != bz[7];
  }

  /** The BAM option. */
  function BamOption(doOutputBam: bool): string
  {
    if doOutputBam then "--output-genome-bam" else "--no-bam-output"
  }

  /** The samtools sort-and-index step for the genome BAM, or "" without BAM output. */
  function SamtoolsCommands(spritzDirectory: string, outputPrefix: string, doOutputBam: bool, tools: RsemTools): string
  {
    if !doOutputBam then ""
    else
      "if [[ ! -f " + tools.convertWindowsPath(outputPrefix + GenomeSortedBamSuffix)
      + " && ! -s " + tools.convertWindowsPath(outputPrefix + GenomeSortedBamSuffix) + " ]]; then\n"
      + "  " + tools.sortBam(spritzDirectory, outputPrefix + GenomeBamSuffix) + "\n"
      + "  " + tools.indexBam(spritzDirectory, outputPrefix + GenomeSortedBamSuffix) + "\n"
      + "fi"
  }

  /** The samtools step is empty exactly when no genome BAM is written. */
  lemma SamtoolsCommandsEmpty(spritzDirectory: string, outputPrefix: string, doOutputBam: bool, tools: RsemTools)
    ensures SamtoolsCommands(spritzDirectory, outputPrefix, doOutputBam, tools) == "" <==> !doOutputBam
    ensures BamOption(doOutputBam) == "--output-genome-bam" <==> doOutputBam
  {
    var s := SamtoolsCommands(spritzDirectory, outputPrefix, doOutputBam, tools);
    if doOutputBam {
      assert |s| >= |"if [[ ! -f "|;
    }
  }

  /** The first path of the first comma-separated fastq list, `fastqPaths[0].Split(',')[0]`. */
  function FirstFastq(fastqPaths: seq<string>): (first: string)
    requires |fastqPaths| >= 1
    ensures first == Split(fastqPaths[0], ',')[0]
  {
    SplitFirstPiece(fastqPaths[0], ',');
    FirstPiece(fastqPaths[0], ',')
  }

  /** Where RSEM writes its results: beside the first fastq, tagged with the reference's hash. */
  function ExpressionOutputPrefix(referencePrefix: string, fastqPaths: seq<string>, tools: RsemTools): string
    requires |fastqPaths| >= 1
  {
    ReplaceExtension(FirstFastq(fastqPaths), "_reference" + IntToString(tools.hashCode(referencePrefix)))
  }

  /** The output prefix lies in the first fastq's directory and is named after it. */
  lemma ExpressionOutputPrefixBeside(referencePrefix: string, fastqPaths: seq<string>, tools: RsemTools)
    requires |fastqPaths| >= 1 && SimpleDir(FirstFastq(fastqPaths))
    ensures var first := FirstFastq(fastqPaths);
      && GetDirectoryName(ExpressionOutputPrefix(referencePrefix, fastqPaths, tools)) == GetDirectoryName(first)
      && GetFileName(ExpressionOutputPrefix(referencePrefix, fastqPaths, tools))
         == GetFileNameWithoutExtension(first) + "_reference" + IntToString(tools.hashCode(referencePrefix))
  {
    var number := IntToString(tools.hashCode(referencePrefix));
    NoSlashInNumber(tools.hashCode(referencePrefix));
    var suffix := "_reference" + number;
    assert '/' !in "_reference";
    assert '/' !in suffix;
    var first := FirstFastq(fastqPaths);
    var stem := GetFileNameWithoutExtension(first);
    assert |stem + suffix| >= |"_reference"|;
    assert ExpressionOutputPrefix(referencePrefix, fastqPaths, tools) == ReplaceExtension(first, suffix);
    ReplaceExtensionShape(first, suffix);
    ConcatAssoc3(stem, "_reference", number);
  }

  /** The commands of `PrepareReferenceCommands` once the aligner is accepted. */
  function ReferenceCommands(spritzDirectory: string, referenceFastaPath: string, threads: int,
                             geneModelPath: string, aligner: AlignerOption, tools: RsemTools): (r: seq<string>)
    requires aligner != Bowtie1
    ensures |r| == 3
  {
    var cw := tools.convertWindowsPath;
    var directory := ReferencePrefixDirectory(referenceFastaPath, aligner, geneModelPath, tools);
    [ "cd " + cw(Combine(spritzDirectory, "RSEM-1.3.0")),
      "mkdir " + cw(directory),
      PrepareReferenceStep(spritzDirectory, referenceFastaPath, threads, geneModelPath, aligner, tools)]
  }

  /** The `rsem-prepare-reference` step, skipped when the suffix array "SA" already exists. */
  function PrepareReferenceStep(spritzDirectory: string, referenceFastaPath: string, threads: int,
                                geneModelPath: string, aligner: AlignerOption, tools: RsemTools): string
    requires aligner != Bowtie1
  {
    var cw := tools.convertWindowsPath;
    var directory := ReferencePrefixDirectory(referenceFastaPath, aligner, geneModelPath, tools);
    var prefix := Combine(directory, GetFileNameWithoutExtension(referenceFastaPath));
    var alignerOption := GetAlignerOption(spritzDirectory, aligner, tools);
    "if [[ ! -f " + cw(Combine(directory, "SA")) + " && ! -s " + cw(Combine(directory, "SA")) + " ]]; then "
    + "./rsem-prepare-reference " + GeneModelOption(geneModelPath, cw).GetOr("") + " "
    + alignerOption.value + " "
    + "--num-threads " + IntToString(threads) + " "
    + cw(referenceFastaPath) + " " + cw(prefix) + "; fi"
  }

  /** The commands of `CalculateExpressionCommands` once its checks pass. */
  function ExpressionCommands(spritzDirectory: string, referencePrefix: string, threads: int,
                              aligner: AlignerOption, strandedness: Strandedness,
                              fastqPaths: seq<string>, doOutputBam: bool, tools: RsemTools): (r: seq<string>)
    requires 1 <= |fastqPaths| <= 2 && aligner != Bowtie1
    ensures |r| == 3
  {
    var prefix := ExpressionOutputPrefix(referencePrefix, fastqPaths, tools);
    [ "cd " + tools.convertWindowsPath(Combine(spritzDirectory, "RSEM-1.3.0")),
      CalculationHead(spritzDirectory, referencePrefix, threads, aligner, fastqPaths, tools)
      + CalculationTail(referencePrefix, aligner, fastqPaths, doOutputBam, tools) + "; fi",
      SamtoolsCommands(spritzDirectory, prefix, doOutputBam, tools)]
  }

  /** The guarded `rsem-calculate-expression` call up to and including the thread option. */
  function CalculationHead(spritzDirectory: string, referencePrefix: string, threads: int,
                           aligner: AlignerOption, fastqPaths: seq<string>, tools: RsemTools): string
    requires 1 <= |fastqPaths| <= 2 && aligner != Bowtie1
  {
    var cw := tools.convertWindowsPath;
    var prefix := ExpressionOutputPrefix(referencePrefix, fastqPaths, tools);
    "if [[ ! -f " + cw(prefix + IsoformResultsSuffix) + " && ! -s " + cw(prefix + IsoformResultsSuffix)
    + " ]]; then " + "./rsem-calculate-expression " + "--time " + "--calc-ci "
    + GetAlignerOption(spritzDirectory, aligner, tools).value + " "
    + "--num-threads " + IntToString(threads) + " "
  }

  /** The rest of the call: compression, BAM and input options, the reference and the output prefix. */
  function CalculationTail(referencePrefix: string, aligner: AlignerOption, fastqPaths: seq<string>,
                           doOutputBam: bool, tools: RsemTools): string
    requires 1 <= |fastqPaths| <= 2
  {
    var cw := tools.convertWindowsPath;
    CompressionOption(fastqPaths[0], aligner) + " "
    + BamOption(doOutputBam) + " "
    + InputOption(fastqPaths, cw) + " "
    + cw(referencePrefix) + " " + cw(ExpressionOutputPrefix(referencePrefix, fastqPaths, tools))
  }

  /**
   * The commands with the computed strandedness option placed after the thread
   * option, as the computation of that option intends: the corrected form of
   * `ExpressionCommands`.
   */
  function StrandedExpressionCommands(spritzDirectory: string, referencePrefix: string, threads: int,
                                      aligner: AlignerOption, strandedness: Strandedness,
                                      fastqPaths: seq<string>, doOutputBam: bool, tools: RsemTools): (r: seq<string>)
    requires 1 <= |fastqPaths| <= 2 && aligner != Bowtie1
    ensures |r| == 3
  {
    var prefix := ExpressionOutputPrefix(referencePrefix, fastqPaths, tools);
    [ "cd " + tools.convertWindowsPath(Combine(spritzDirectory, "RSEM-1.3.0")),
      CalculationHead(spritzDirectory, referencePrefix, threads, aligner, fastqPaths, tools)
      + (StrandednessOption(strandedness) + " ")
      + (CalculationTail(referencePrefix, aligner, fastqPaths, doOutputBam, tools) + "; fi"),
      SamtoolsCommands(spritzDirectory, prefix, doOutputBam, tools)]
  }

  /** With the option in place, the call carries the requested strandedness right after the thread option. */
  lemma StrandedCallCarriesStrandedness(spritzDirectory: string, referencePrefix: string, threads: int,
                                        aligner: AlignerOption, strandedness: Strandedness,
                                        fastqPaths: seq<string>, doOutputBam: bool, tools: RsemTools)
    requires 1 <= |fastqPaths| <= 2 && aligner != Bowtie1
    ensures var head := CalculationHead(spritzDirectory, referencePrefix, threads, aligner, fastqPaths, tools);
      var r := StrandedExpressionCommands(spritzDirectory, referencePrefix, threads, aligner, strandedness,
                                          fastqPaths, doOutputBam, tools);
      StartsWith(r[1], head + (StrandednessOption(strandedness) + " "))
  {
    var head := CalculationHead(spritzDirectory, referencePrefix, threads, aligner, fastqPaths, tools);
    var tail := CalculationTail(referencePrefix, aligner, fastqPaths, doOutputBam, tools) + "; fi";
    PrefixOfConcat(head + (StrandednessOption(strandedness) + " "), tail);
  }

  /** Two different strandedness requests give two different calls. */
  lemma StrandedCallsDiffer(spritzDirectory: string, referencePrefix: string, threads: int,
                            aligner: AlignerOption, s1: Strandedness, s2: Strandedness,
                            fastqPaths: seq<string>, doOutputBam: bool, tools: RsemTools)
    requires 1 <= |fastqPaths| <= 2 && aligner != Bowtie1 && s1 != s2
    ensures StrandedExpressionCommands(spritzDirectory, referencePrefix, threads, aligner, s1, fastqPaths, doOutputBam, tools)[1]
         != StrandedExpressionCommands(spritzDirectory, referencePrefix, threads, aligner, s2, fastqPaths, doOutputBam, tools)[1]
  {
    var head := CalculationHead(spritzDirectory, referencePrefix, threads, aligner, fastqPaths, tools);
    var tail := CalculationTail(referencePrefix, aligner, fastqPaths, doOutputBam, tools) + "; fi";
    OptionedCallsDiffer(head, tail, s1, s2);
  }

  /** Placing two different strandedness options between the same two texts gives two different texts. */
  lemma OptionedCallsDiffer(head: string, tail: string, s1: Strandedness, s2: Strandedness)
    requires s1 != s2
    ensures head + (StrandednessOption(s1) + " ") + tail != head + (StrandednessOption(s2) + " ") + tail
  {
    StrandednessOptionsDiffer(s1, s2);
    DifferentMiddles(head, StrandednessOption(s1) + " ", StrandednessOption(s2) + " ", tail, 15);
  }

  /** Only the call changes: the first and last commands are those of `ExpressionCommands`. */
  lemma StrandedCommandsElsewhereUnchanged(spritzDirectory: string, referencePrefix: string, threads: int,
                                           aligner: AlignerOption, strandedness: Strandedness,
                                           fastqPaths: seq<string>, doOutputBam: bool, tools: RsemTools)
    requires 1 <= |fastqPaths| <= 2 && aligner != Bowtie1
    ensures var r := StrandedExpressionCommands(spritzDirectory, referencePrefix, threads, aligner, strandedness,
                                                fastqPaths, doOutputBam, tools);
      var w := ExpressionCommands(spritzDirectory, referencePrefix, threads, aligner, strandedness,
                                  fastqPaths, doOutputBam, tools);
      r[0] == w[0] && r[2] == w[2]
  {
  }

  /** Two strandedness options differ in the letter that follows "--strandedness ". */
  lemma StrandednessOptionsDiffer(s1: Strandedness, s2: Strandedness)
    requires s1 != s2
    ensures |StrandednessOption(s1)| > 15 && |StrandednessOption(s2)| > 15
    ensures StrandednessOption(s1)[15] != StrandednessOption(s2)[15]
  {
    StrandednessOptionValues();
  }

  /** Texts that differ only in a middle piece of one length, at a place inside it, are different. */
  lemma DifferentMiddles(head: string, m1: string, m2: string, tail: string, k: nat)
    requires k < |m1| && k < |m2| && m1[k] != m2[k]
    ensures head + m1 + tail != head + m2 + tail
  {
    assert (head + m1 + tail)[|head| + k] == m1[k];
    assert (head + m2 + tail)[|head| + k] == m2[k];
  }

  /**
   * The strandedness option is computed but never placed in the command, so the
   * commands are the same whatever strandedness is asked for.
   */
  lemma ExpressionCommandsIgnoreStrandedness(spritzDirectory: string, referencePrefix: string, threads: int,
                                             aligner: AlignerOption, s1: Strandedness, s2: Strandedness,
                                             fastqPaths: seq<string>, doOutputBam: bool, tools: RsemTools)
    requires 1 <= |fastqPaths| <= 2 && aligner != Bowtie1
    ensures ExpressionCommands(spritzDirectory, referencePrefix, threads, aligner, s1, fastqPaths, doOutputBam, tools)
         == ExpressionCommands(spritzDirectory, referencePrefix, threads, aligner, s2, fastqPaths, doOutputBam, tools)
  {
  }

  /**
   * The expression step starts in RSEM's directory and ends with the samtools
   * step, which is empty exactly without genome BAM output.
   */
  lemma ExpressionCommandsShape(spritzDirectory: string, referencePrefix: string, threads: int,
                                aligner: AlignerOption, strandedness: Strandedness,
                                fastqPaths: seq<string>, doOutputBam: bool, tools: RsemTools)
    requires 1 <= |fastqPaths| <= 2 && aligner != Bowtie1
    ensures var r := ExpressionCommands(spritzDirectory, referencePrefix, threads, aligner, strandedness,
                                        fastqPaths, doOutputBam, tools);
      && StartsWith(r[0], "cd ")
      && (r[2] == "" <==> !doOutputBam)
  {
    var r := ExpressionCommands(spritzDirectory, referencePrefix, threads, aligner, strandedness,
                                fastqPaths, doOutputBam, tools);
    var prefix := ExpressionOutputPrefix(referencePrefix, fastqPaths, tools);
    SamtoolsCommandsEmpty(spritzDirectory, prefix, doOutputBam, tools);
    assert r[0][..3] == "cd ";
  }

  /**
   * The decision of `CalculateExpressionCommands`: no fastq entry, more than two,
   * and Bowtie1 are refused in that order; otherwise the commands.
   */
  function CalculateExpression(spritzDirectory: string, referencePrefix: string, threads: int,
                               aligner: AlignerOption, strandedness: Strandedness,
                               fastqPaths: seq<string>, doOutputBam: bool, tools: RsemTools)
    : Wrappers.Result<seq<string>, RsemError>
  {
    if |fastqPaths| < 1 then Wrappers.Failure(NoFastqs)
    else if |fastqPaths| > 2 then Wrappers.Failure(TooManyFastqs)
    else
      match GetAlignerOption(spritzDirectory, aligner, tools)
      case Failure(e) => Wrappers.Failure(e)
      case Success(_) =>
        Wrappers.Success(ExpressionCommands(spritzDirectory, referencePrefix, threads, aligner, strandedness,
                                            fastqPaths, doOutputBam, tools))
  }

  /** Exactly one or two fastq entries and an aligner other than Bowtie1 are accepted, each refusal with its own error. */
  lemma CalculateExpressionChecks(spritzDirectory: string, referencePrefix: string, threads: int,
                                  aligner: AlignerOption, strandedness: Strandedness,
                                  fastqPaths: seq<string>, doOutputBam: bool, tools: RsemTools)
    ensures var r := CalculateExpression(spritzDirectory, referencePrefix, threads, aligner, strandedness,
                                         fastqPaths, doOutputBam, tools);
      && (|fastqPaths| < 1 ==> r == Wrappers.Failure(NoFastqs))
      && (|fastqPaths| > 2 ==> r == Wrappers.Failure(TooManyFastqs))
      && (1 <= |fastqPaths| <= 2 && aligner == Bowtie1 ==> r == Wrappers.Failure(UnsupportedAligner))
      && (r.Success? <==> 1 <= |fastqPaths| <= 2 && aligner != Bowtie1)
  {
  }

  class RSEMWrapper {
    var ReferenceIndexPrefix: Wrappers.Option<string>
    var OutputPrefix: Wrappers.Option<string>

    constructor ()
      ensures ReferenceIndexPrefix.None? && OutputPrefix.None?
    {
      ReferenceIndexPrefix := Wrappers.None;
      OutputPrefix := Wrappers.None;
    }

    /**
     * `PrepareReferenceCommands`: refuses Bowtie1 before anything is recorded;
     * otherwise records the reference index prefix inside the reference directory
     * and returns the commands that build the reference unless its suffix array
     * is already there.
     */
    method PrepareReferenceCommands(spritzDirectory: string, referenceFastaPath: string, threads: int,
                                    geneModelPath: string, aligner: AlignerOption, tools: RsemTools)
      returns (r: Wrappers.Result<seq<string>, RsemError>)
      modifies this`ReferenceIndexPrefix
      ensures r.Failure? <==> aligner == Bowtie1
      ensures r.Failure? ==> r.error == UnsupportedAligner && ReferenceIndexPrefix == old(ReferenceIndexPrefix)
      ensures r.Success? ==>
        && ReferenceIndexPrefix == Wrappers.Some(Combine(ReferencePrefixDirectory(referenceFastaPath, aligner, geneModelPath, tools),
                                                         GetFileNameWithoutExtension(referenceFastaPath)))
        && r.value == ReferenceCommands(spritzDirectory, referenceFastaPath, threads, geneModelPath, aligner, tools)
    {
      var alignerOption := GetAlignerOption(spritzDirectory, aligner, tools);
      if alignerOption.Failure? {
        return Wrappers.Failure(alignerOption.error);
      }
      var referencePrefixDirectory := ReferencePrefixDirectory(referenceFastaPath, aligner, geneModelPath, tools);
      ReferenceIndexPrefix := Wrappers.Some(Combine(referencePrefixDirectory, GetFileNameWithoutExtension(referenceFastaPath)));
      r := Wrappers.Success(ReferenceCommands(spritzDirectory, referenceFastaPath, threads, geneModelPath, aligner, tools));
    }

    /**
     * `CalculateExpressionCommands`: returns what `CalculateExpression` decides,
     * and records the output prefix only when it succeeds.
     */
    method CalculateExpressionCommands(spritzDirectory: string, referencePrefix: string, threads: int,
                                       aligner: AlignerOption, strandedness: Strandedness,
                                       fastqPaths: seq<string>, doOutputBam: bool, tools: RsemTools)
      returns (r: Wrappers.Result<seq<string>, RsemError>)
      modifies this`OutputPrefix
      ensures r == CalculateExpression(spritzDirectory, referencePrefix, threads, aligner, strandedness,
                                       fastqPaths, doOutputBam, tools)
      ensures OutputPrefix == if 1 <= |fastqPaths| <= 2 && aligner != Bowtie1
                              then Wrappers.Some(ExpressionOutputPrefix(referencePrefix, fastqPaths, tools))
                              else old(OutputPrefix)
    {
      r := CalculateExpression(spritzDirectory, referencePrefix, threads, aligner, strandedness,
                               fastqPaths, doOutputBam, tools);
      if 1 <= |fastqPaths| <= 2 && aligner != Bowtie1 {
        OutputPrefix := Wrappers.Some(ExpressionOutputPrefix(referencePrefix, fastqPaths, tools));
      }
    }
  }
}
