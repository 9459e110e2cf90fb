/**
 * BED conversions of a gene model: the BED6 file beside a GTF or GFF file, made
 * only when it is missing or empty, and the BED12 files made from its GTF form.
 */
module Bedops {
  import opened Wrappers
  import opened Strings
  import opened Paths
  import opened Scripts

  /**
   * The helpers of other wrappers the conversions call, which are not part of this
   * model; `gffToGtf` is the GTF path `CufflinksWrapper.GffToGtf` hands back.
   */
  datatype BedopsTools = BedopsTools(
    changeToToolsDirectoryCommand: string -> string,
    convertWindowsPath: string -> string,
    gffToGtf: string -> string)

  /** The path a conversion returns and the script it runs, if any. */
  datatype Conversion = Conversion(outputPath: string, script: Option<Script>)

  /** The awk step that gives every GTF line a `transcript_id` attribute before `gtf2bed`. */
  const TranscriptIdFix: string := "awk " + TranscriptIdProgram

  /** The awk program of that step, with a space after it. */
  const TranscriptIdProgram: string :=
    "'{ if ($0 ~ \"transcript_id\") print $0; else print $0\" transcript_id \\\"\\\";\"; }' "

  /** What feeds the BED6 converter: the awk fix for GTF input, `cat` for anything else. */
  function Bed6Reader(extension: string): string
  {
    if extension == ".gtf" then TranscriptIdFix else "cat "
  }

  /** The BEDOPS converter for the extension. */
  function Bed6Converter(extension: string): string
  {
    if extension == ".gtf" then "gtf2bed" else "gff2bed"
  }

  /** The BED6 file: "<dir>/<name>.bed" beside the gene model. */
  function Bed6Path(gtfOrGffPath: string): string
  {
    ReplaceExtension(gtfOrGffPath, ".bed")
  }

  /** `GtfOrGff2Bed6`: converts only when the BED6 file is missing or has no bytes, and returns its path. */
  function GtfOrGff2Bed6(spritzDirectory: string, analysisDirectory: string, gtfOrGffPath: string,
                         fs: FileSystem, tools: BedopsTools): Conversion
  {
    var extension := GetExtension(gtfOrGffPath);
    var bedPath := Bed6Path(gtfOrGffPath);
    var cw := tools.convertWindowsPath;
    if !Exists(fs, bedPath) || fs[bedPath] == 0 then
      Conversion(bedPath, Some(Script(analysisDirectory, "Bed6Conversion.bash", [
        tools.changeToToolsDirectoryCommand(spritzDirectory),
        Bed6Reader(extension) + cw(gtfOrGffPath) + " | " + Bed6Converter(extension) + " - > " + cw(bedPath)])))
    else Conversion(bedPath, None)
  }

  /** The BED6 file lies beside the gene model as "<name>.bed". */
  lemma Bed6PathBeside(gtfOrGffPath: string)
    requires SimpleDir(gtfOrGffPath)
    ensures GetDirectoryName(Bed6Path(gtfOrGffPath)) == GetDirectoryName(gtfOrGffPath)
    ensures GetFileName(Bed6Path(gtfOrGffPath)) == GetFileNameWithoutExtension(gtfOrGffPath) + ".bed"
  {
    ReplaceExtensionShape(gtfOrGffPath, ".bed");
  }

  /**
   * The BED6 path is returned whatever the file system holds, and the conversion
   * runs exactly when that file is missing or empty.
   */
  lemma Bed6Guard(spritzDirectory: string, analysisDirectory: string, gtfOrGffPath: string,
                  fs: FileSystem, tools: BedopsTools)
    ensures var c := GtfOrGff2Bed6(spritzDirectory, analysisDirectory, gtfOrGffPath, fs, tools);
      && c.outputPath == Bed6Path(gtfOrGffPath)
      && (c.script.None? <==> NonEmpty(fs, Bed6Path(gtfOrGffPath)))
      && (c.script.Some? ==> c.script.value.name == "Bed6Conversion.bash" && |c.script.value.commands| == 2)
  {
  }

  /**
   * GTF input is read through the awk fix into `gtf2bed`; any other input is
   * read by `cat` into `gff2bed`.
   */
  lemma Bed6ToolChoice(extension: string)
    ensures extension == ".gtf" <==> Bed6Converter(extension) == "gtf2bed"
    ensures extension == ".gtf" <==> StartsWith(Bed6Reader(extension), "awk ")
    ensures extension != ".gtf" <==> Bed6Reader(extension) == "cat " && Bed6Converter(extension) == "gff2bed"
  {
    PrefixOfConcat("awk ", TranscriptIdProgram);
    assert "gff2bed"[1] != "gtf2bed"[1];
  }

  /** The GTF the BED12 files come from: a ".gff…" model converted first, any other used as given. */
  function GeneModelGtf(geneModelGtfOrGff: string, tools: BedopsTools): string
  {
    if StartsWith(GetExtension(geneModelGtfOrGff), ".gff") then tools.gffToGtf(geneModelGtfOrGff)
    else geneModelGtfOrGff
  }

  /** The sorted BED12 file both BED12 conversions return. */
  function SortedBed12Path(geneModelGtf: string): string
  {
    ReplaceExtension(geneModelGtf, ".sorted.bed12")
  }

  /** The first two BED12 steps, GTF to genePred and genePred to BED12. */
  function Bed12Commands(geneModelGtf: string, cw: string -> string): seq<string>
  {
    var genePredPath := ReplaceExtension(geneModelGtf, ".genePred");
    var bed12Path := ReplaceExtension(geneModelGtf, ".bed12");
    [ "gtfToGenePred " + cw(geneModelGtf) + " " + cw(genePredPath),
      "genePredToBed " + cw(genePredPath) + " " + cw(bed12Path)]
  }

  /** `GffOrGtf2Bed12`: always converts, sorting by chromosome and start position. */
  function GffOrGtf2Bed12(spritzDirectory: string, analysisDirectory: string, geneModelGtfOrGff: string,
                          tools: BedopsTools): Conversion
  {
    var geneModelGtf := GeneModelGtf(geneModelGtfOrGff, tools);
    var cw := tools.convertWindowsPath;
    var bed12Path := ReplaceExtension(geneModelGtf, ".bed12");
    var sortedBed12Path := SortedBed12Path(geneModelGtf);
    Conversion(sortedBed12Path, Some(Script(analysisDirectory, "Bed12conversion.bash",
      Bed12Commands(geneModelGtf, cw) + ["sort -k1,1 -k2,2n " + cw(bed12Path) + " > " + cw(sortedBed12Path)])))
  }

  /** `Gtf2Bed12`: always converts, sorting in the order of the genome's FASTA index. */
  function Gtf2Bed12(spritzDirectory: string, analysisDirectory: string, filteredGeneModelGtfGffPath: string,
                     genomeFastaPath: string, tools: BedopsTools): Conversion
  {
    var geneModelGtf := GeneModelGtf(filteredGeneModelGtfGffPath, tools);
    var cw := tools.convertWindowsPath;
    var bed12Path := ReplaceExtension(geneModelGtf, ".bed12");
    var sortedBed12Path := SortedBed12Path(geneModelGtf);
    Conversion(sortedBed12Path, Some(Script(analysisDirectory, "Bed12FaidxSortConversion.bash",
      Bed12Commands(geneModelGtf, cw)
      + ["bedtools sort -faidx " + cw(genomeFastaPath + ".fai") + " -i " + cw(bed12Path) + " > " + cw(sortedBed12Path)])))
  }

  /** A ".gff…" gene model is replaced by its GTF form; any other model is its own GTF. */
  lemma GeneModelGtfCases(geneModelGtfOrGff: string, tools: BedopsTools)
    ensures StartsWith(GetExtension(geneModelGtfOrGff), ".gff") ==>
      GeneModelGtf(geneModelGtfOrGff, tools) == tools.gffToGtf(geneModelGtfOrGff)
    ensures !StartsWith(GetExtension(geneModelGtfOrGff), ".gff") ==>
      GeneModelGtf(geneModelGtfOrGff, tools) == geneModelGtfOrGff
  {
  }

  /**
   * Both BED12 conversions run with no gate, return the sorted BED12 path of the
   * same GTF and share their first two steps.
   */
  lemma Bed12Outputs(spritzDirectory: string, analysisDirectory: string, geneModelGtfOrGff: string,
                     genomeFastaPath: string, tools: BedopsTools)
    ensures var plain := GffOrGtf2Bed12(spritzDirectory, analysisDirectory, geneModelGtfOrGff, tools);
      var faidx := Gtf2Bed12(spritzDirectory, analysisDirectory, geneModelGtfOrGff, genomeFastaPath, tools);
      var gtf := GeneModelGtf(geneModelGtfOrGff, tools);
      && plain.script.Some? && faidx.script.Some?
      && plain.outputPath == faidx.outputPath == SortedBed12Path(gtf)
      && |plain.script.value.commands| == |faidx.script.value.commands| == 3
      && plain.script.value.commands[..2] == faidx.script.value.commands[..2]
         == Bed12Commands(gtf, tools.convertWindowsPath)
  {
  }

  /** `GffOrGtf2Bed12` sorts by chromosome and then numerically by start. */
  lemma Bed12PlainSort(spritzDirectory: string, analysisDirectory: string, geneModelGtfOrGff: string,
                       tools: BedopsTools)
    ensures StartsWith(GffOrGtf2Bed12(spritzDirectory, analysisDirectory, geneModelGtfOrGff, tools).script.value.commands[2],
                       "sort -k1,1 -k2,2n ")
  {
    var gtf := GeneModelGtf(geneModelGtfOrGff, tools);
    var cw := tools.convertWindowsPath;
    ThirdLineStarts(Bed12Commands(gtf, cw), "sort -k1,1 -k2,2n ",
      cw(ReplaceExtension(gtf, ".bed12")), " > ", cw(SortedBed12Path(gtf)));
  }

  /** `Gtf2Bed12` sorts in the order of the genome's FASTA index, "<genome>.fai". */
  lemma Bed12FaidxSort(spritzDirectory: string, analysisDirectory: string, geneModelGtfOrGff: string,
                       genomeFastaPath: string, tools: BedopsTools)
    ensures StartsWith(Gtf2Bed12(spritzDirectory, analysisDirectory, geneModelGtfOrGff, genomeFastaPath, tools)
                         .script.value.commands[2],
                       "bedtools sort -faidx " + tools.convertWindowsPath(genomeFastaPath + ".fai"))
  {
    var gtf := GeneModelGtf(geneModelGtfOrGff, tools);
    var cw := tools.convertWindowsPath;
    ThirdLineStarts4(Bed12Commands(gtf, cw), "bedtools sort -faidx " + cw(genomeFastaPath + ".fai"),
      " -i ", cw(ReplaceExtension(gtf, ".bed12")), " > ", cw(SortedBed12Path(gtf)));
  }

  /** A third line made of a prefix and three more pieces starts with that prefix. */
  lemma ThirdLineStarts(two: seq<string>, prefix: string, a: string, b: string, c: string)
    requires |two| == 2
    ensures StartsWith((two + [prefix + a + b + c])[2], prefix)
  {
    assert prefix + a + b + c == prefix + (a + b + c);
    PrefixOfConcat(prefix, a + b + c);
  }

  /** A third line made of a prefix and four more pieces starts with that prefix. */
  lemma ThirdLineStarts4(two: seq<string>, prefix: string, a: string, b: string, c: string, d: string)
    requires |two| == 2
    ensures StartsWith((two + [prefix + a + b + c + d])[2], prefix)
  {
    assert prefix + a + b + c + d == prefix + (a + b + c + d);
    PrefixOfConcat(prefix, a + b + c + d);
  }

  /** The sorted BED12 file lies beside the GTF as "<name>.sorted.bed12". */
  lemma SortedBed12Beside(geneModelGtf: string)
    requires SimpleDir(geneModelGtf)
    ensures GetDirectoryName(SortedBed12Path(geneModelGtf)) == GetDirectoryName(geneModelGtf)
    ensures GetFileName(SortedBed12Path(geneModelGtf)) == GetFileNameWithoutExtension(geneModelGtf) + ".sorted.bed12"
  {
    ReplaceExtensionShape(geneModelGtf, ".sorted.bed12");
  }

  /** Paths derived from one file with different suffixes are different files. */
  lemma DistinctArtifacts(p: string, suffix1: string, suffix2: string)
    requires SimpleDir(p) && '/' !in suffix1 && '/' !in suffix2 && suffix1 != "" && suffix2 != ""
    requires suffix1 != suffix2
    ensures ReplaceExtension(p, suffix1) != ReplaceExtension(p, suffix2)
  {
    var stem := GetFileNameWithoutExtension(p);
    ReplaceExtensionShape(p, suffix1);
    ReplaceExtensionShape(p, suffix2);
    assert (stem + suffix1)[|stem|..] == suffix1;
    assert (stem + suffix2)[|stem|..] == suffix2;
  }
}
