/**
 * The Ensembl reference manager: where the GRCh37/GRCh38 references are put and
 * fetched from, the chromosome-name tables and the first-column translation of
 * tab-separated files, the gene-model filter, the classification of protein
 * accessions, and the karyotypic reordering of the genome FASTA.
 */
module EnsemblDownloads {
  import opened Wrappers
  import opened Strings
  import opened Paths
  import opened Dictionaries
  import opened Scripts

  /** The common beginnings of the reference file names. */
  const GRCh37Stem: string := "Homo_sapiens.GRCh37.75"
  const GRCh38Stem: string := "Homo_sapiens.GRCh38"
  const GRCh38ReleaseStem: string := "Homo_sapiens.GRCh38.81"

  const GRCh37PrimaryAssemblyUrl: string :=
    "ftp://ftp.ensembl.org/pub/release-75//fasta/homo_sapiens/dna/Homo_sapiens.GRCh37.75.dna.primary_assembly.fa.gz"
  const GRCh37PrimaryAssemblyFilename: string := GRCh37Stem + ".dna.primary_assembly.fa"
  const GRCh38PrimaryAssemblyUrl: string :=
    "ftp://ftp.ensembl.org/pub/release-81//fasta/homo_sapiens/dna/Homo_sapiens.GRCh38.dna.primary_assembly.fa.gz"
  const GRCh38PrimaryAssemblyFilename: string := GRCh38Stem + ".dna.primary_assembly.fa"
  const GRCh37GtfGeneModelUrl: string :=
    "ftp://ftp.ensembl.org/pub/release-75/gtf/homo_sapiens/Homo_sapiens.GRCh37.75.gtf.gz"
  const GRCh37GtfGeneModelFilename: string := GRCh37Stem + ".gtf"
  const GRCh38GtfGeneModelUrl: string :=
    "ftp://ftp.ensembl.org/pub/release-81/gtf/homo_sapiens/Homo_sapiens.GRCh38.81.gtf.gz"
  const GRCh38GtfGeneModelFilename: string := GRCh38ReleaseStem + ".gtf"
  /** There is no GFF3 gene model for GRCh37. */
  const GRCh38Gff3GeneModelUrl: string :=
    "ftp://ftp.ensembl.org/pub/release-81/gff3/homo_sapiens/Homo_sapiens.GRCh38.81.gff3.gz"
  const GRCh38Gff3GeneModelFilename: string := GRCh38ReleaseStem + ".gff3"
  const GRCh37ProteinFastaUrl: string :=
    "ftp://ftp.ensembl.org/pub/release-75//fasta/homo_sapiens/pep/Homo_sapiens.GRCh37.75.pep.all.fa.gz"
  const GRCh37ProteinFastaFilename: string := GRCh37Stem + ".pep.all.fa"
  const GRCh38ProteinFastaUrl: string :=
    "ftp://ftp.ensembl.org/pub/release-81//fasta/homo_sapiens/pep/Homo_sapiens.GRCh38.pep.all.fa.gz"
  const GRCh38ProteinFastaFilename: string := GRCh38Stem + ".pep.all.fa"

  datatype Assembly = GRCh37 | GRCh38

  /** The assembly a reference name stands for, matched without regard to letter case. */
  function RecognizeReference(reference: string): Option<Assembly>
  {
    if EqualsIgnoreCase(reference, "GRCh37") then Some(GRCh37)
    else if EqualsIgnoreCase(reference, "GRCh38") then Some(GRCh38)
    else None
  }

  /** The names "GRCh37" and "GRCh38" in any letter case, and nothing else, are recognised. */
  lemma RecognizeReferenceCases(reference: string)
    ensures RecognizeReference(reference) == Some(GRCh37) <==> EqualsIgnoreCase(reference, "GRCh37")
    ensures RecognizeReference(reference) == Some(GRCh38) <==> EqualsIgnoreCase(reference, "GRCh38")
    ensures RecognizeReference(reference).None?
        <==> !EqualsIgnoreCase(reference, "GRCh37") && !EqualsIgnoreCase(reference, "GRCh38")
  {
    if EqualsIgnoreCase(reference, "GRCh37") {
      assert ToLower(reference[5]) == '7';
    }
  }

  /** The four reference files `DownloadReferences` records. */
  datatype ReferencePaths = ReferencePaths(
    genomeFasta: string, gtfGeneModel: string, gff3GeneModel: string, proteinFasta: string)

  /** The reference paths for a reference name, all "" when the name is not recognised. */
  function ResolveReferencePaths(targetDirectory: string, reference: string): (p: ReferencePaths)
  {
    match RecognizeReference(reference)
    case Some(GRCh37) =>
      var gtf := Combine(targetDirectory, GRCh37GtfGeneModelFilename);
      ReferencePaths(
        Combine(targetDirectory, GRCh37PrimaryAssemblyFilename), gtf, gtf,
        Combine(targetDirectory, GRCh37ProteinFastaFilename))
    case Some(GRCh38) =>
      ReferencePaths(
        Combine(targetDirectory, GRCh38PrimaryAssemblyFilename),
        Combine(targetDirectory, GRCh38GtfGeneModelFilename),
        Combine(targetDirectory, GRCh38Gff3GeneModelFilename),
        Combine(targetDirectory, GRCh38ProteinFastaFilename))
    case None => ReferencePaths("", "", "", "")
  }

  /** The file names of an assembly's references, in the order of `ReferencePaths`. */
  function ReferenceFileNames(a: Assembly): ReferencePaths
  {
    match a
    case GRCh37 => ReferencePaths(GRCh37PrimaryAssemblyFilename, GRCh37GtfGeneModelFilename,
                                  GRCh37GtfGeneModelFilename, GRCh37ProteinFastaFilename)
    case GRCh38 => ReferencePaths(GRCh38PrimaryAssemblyFilename, GRCh38GtfGeneModelFilename,
                                  GRCh38Gff3GeneModelFilename, GRCh38ProteinFastaFilename)
  }

  /** The reference file names are plain names, free of '/'. */
  lemma ReferenceFileNamesPlain(a: Assembly)
    ensures var n := ReferenceFileNames(a);
      && n.genomeFasta != "" && '/' !in n.genomeFasta && n.gtfGeneModel != "" && '/' !in n.gtfGeneModel
      && n.gff3GeneModel != "" && '/' !in n.gff3GeneModel && n.proteinFasta != "" && '/' !in n.proteinFasta
  {
    assert '/' !in GRCh37Stem && '/' !in GRCh38Stem && '/' !in GRCh38ReleaseStem;
    assert '/' !in ".dna.primary_assembly.fa" && '/' !in ".pep.all.fa";
    assert '/' !in ".gtf" && '/' !in ".gff3";
  }

  /** The URLs an assembly's references are fetched from; GRCh37 fetches its GTF for the GFF3. */
  function ReferenceUrls(a: Assembly): ReferencePaths
  {
    match a
    case GRCh37 => ReferencePaths(GRCh37PrimaryAssemblyUrl, GRCh37GtfGeneModelUrl,
                                  GRCh37GtfGeneModelUrl, GRCh37ProteinFastaUrl)
    case GRCh38 => ReferencePaths(GRCh38PrimaryAssemblyUrl, GRCh38GtfGeneModelUrl,
                                  GRCh38Gff3GeneModelUrl, GRCh38ProteinFastaUrl)
  }

  /**
   * A recognised reference puts each file, under its fixed name, in the target
   * directory; for GRCh37 the GFF3 path is the GTF path. An unrecognised one
   * resolves every path to "".
   */
  lemma ResolvedReferenceFiles(targetDirectory: string, reference: string)
    ensures var p := ResolveReferencePaths(targetDirectory, reference);
      match RecognizeReference(reference)
      case Some(a) =>
        && GetFileName(p.genomeFasta) == ReferenceFileNames(a).genomeFasta
        && GetFileName(p.gtfGeneModel) == ReferenceFileNames(a).gtfGeneModel
        && GetFileName(p.gff3GeneModel) == ReferenceFileNames(a).gff3GeneModel
        && GetFileName(p.proteinFasta) == ReferenceFileNames(a).proteinFasta
        && (a == GRCh37 ==> p.gff3GeneModel == p.gtfGeneModel)
      case None => p == ReferencePaths("", "", "", "")
  {
    match RecognizeReference(reference)
    case Some(a) =>
      var names := ReferenceFileNames(a);
      ReferenceFileNamesPlain(a);
      CombineFileName(targetDirectory, names.genomeFasta);
      CombineFileName(targetDirectory, names.gtfGeneModel);
      CombineFileName(targetDirectory, names.gff3GeneModel);
      CombineFileName(targetDirectory, names.proteinFasta);
    case None =>
  }

  /** One line of the download script: fetch and unpack `url` into `file` unless it is there. */
  function FetchCommand(file: string, url: string): string
  {
    "if [ ! -f " + file + " ]; then wget -O - " + url + " | gunzip -c > " + file + "; fi"
  }

  /** The download script for a recognised assembly. */
  function DownloadScript(targetDirectory: string, p: ReferencePaths, a: Assembly,
                          convertWindowsPath: string -> string): Script
  {
    var urls := ReferenceUrls(a);
    Script(targetDirectory, "DownloadEnsemblReference.bash", [
      "cd " + convertWindowsPath(targetDirectory),
      FetchCommand(GetFileName(p.genomeFasta), urls.genomeFasta),
      FetchCommand(GetFileName(p.gtfGeneModel), urls.gtfGeneModel),
      FetchCommand(GetFileName(p.gff3GeneModel), urls.gff3GeneModel),
      FetchCommand(GetFileName(p.proteinFasta), urls.proteinFasta)])
  }

  /**
   * The download script fetches every reference file under its own name from its
   * assembly's URL, and for GRCh37 fetches the GTF model a second time in place of
   * the GFF3 model.
   */
  lemma DownloadScriptFetches(targetDirectory: string, reference: string, convertWindowsPath: string -> string)
    requires RecognizeReference(reference).Some?
    ensures var a := RecognizeReference(reference).value;
      var s := DownloadScript(targetDirectory, ResolveReferencePaths(targetDirectory, reference), a, convertWindowsPath);
      var names, urls := ReferenceFileNames(a), ReferenceUrls(a);
      && s.commands == [
          "cd " + convertWindowsPath(targetDirectory),
          FetchCommand(names.genomeFasta, urls.genomeFasta),
          FetchCommand(names.gtfGeneModel, urls.gtfGeneModel),
          FetchCommand(names.gff3GeneModel, urls.gff3GeneModel),
          FetchCommand(names.proteinFasta, urls.proteinFasta)]
      && (a == GRCh37 ==> s.commands[3] == s.commands[2])
  {
    ResolvedReferenceFiles(targetDirectory, reference);
  }

  /** Text files by path, each as its lines (what `File.ReadAllLines` and `ReadLine` see). */
  type TextFiles = map<string, seq<string>>

  datatype LoadError = FileNotFound(path: string) | DuplicateChromosome(name: string)

  datatype MappingDirection = UcscToEnsembl | EnsemblToUcsc

  /** The table's file name: GRCh37's for a reference named GRCh37, GRCh38's for any other. */
  function MappingTableName(reference: string, direction: MappingDirection): string
  {
    (if RecognizeReference(reference) == Some(GRCh37) then "GRCh37" else "GRCh38")
      + (match direction case UcscToEnsembl => "_UCSC2ensembl.txt" case EnsemblToUcsc => "_ensembl2UCSC.txt")
  }

  /** "<spritz>/Tools/ChromosomeMappings/<table>". */
  function MappingTablePath(spritzDirectory: string, reference: string, direction: MappingDirection): string
  {
    Combine(Combine(Combine(spritzDirectory, "Tools"), "ChromosomeMappings"), MappingTableName(reference, direction))
  }

  /** A line of a mapping table that has at least two tab-separated columns. */
  predicate IsMappingRow(line: string)
  {
    |Split(line, '\t')| > 1
  }

  /** Column 0 paired with column 1 of a mapping row. */
  function RowPair(line: string): (string, string)
    requires IsMappingRow(line)
  {
    var columns := Split(line, '\t');
    (columns[0], columns[1])
  }

  /** `Select(line => line.Split('\t')).Where(x => x.Length > 1)`, as key/value pairs. */
  function MappingPairs(lines: seq<string>): seq<(string, string)>
  {
    if |lines| == 0 then []
    else (if IsMappingRow(lines[0]) then [RowPair(lines[0])] else []) + MappingPairs(lines[1..])
  }

  /** The first column of a line. */
  function FirstColumn(line: string): string
  {
    Split(line, '\t')[0]
  }

  /** Some row of the table has first column `k`. */
  predicate KeyInRows(lines: seq<string>, k: string)
  {
    exists i :: 0 <= i < |lines| && IsMappingRow(lines[i]) && FirstColumn(lines[i]) == k
  }

  /** Two different rows of the table share their first column. */
  predicate RepeatedChromosome(lines: seq<string>)
  {
    exists i, j :: 0 <= i < j < |lines| && IsMappingRow(lines[i]) && IsMappingRow(lines[j])
                   && FirstColumn(lines[i]) == FirstColumn(lines[j])
  }

  /** Helper: a repeat involves the first line or lies in the rest. */
  lemma RepeatedHeadTail(lines: seq<string>)
    requires |lines| > 0
    ensures RepeatedChromosome(lines) <==>
      (IsMappingRow(lines[0]) && KeyInRows(lines[1..], FirstColumn(lines[0]))) || RepeatedChromosome(lines[1..])
  {
    if RepeatedChromosome(lines) {
      RepeatSplits(lines);
    }
    if IsMappingRow(lines[0]) && KeyInRows(lines[1..], FirstColumn(lines[0])) {
      HeadRepeats(lines);
    }
    if RepeatedChromosome(lines[1..]) {
      TailRepeats(lines);
    }
  }

  /** A repeat pairs the first row with a later one, or two rows of the rest. */
  lemma RepeatSplits(lines: seq<string>)
    requires |lines| > 0 && RepeatedChromosome(lines)
    ensures (IsMappingRow(lines[0]) && KeyInRows(lines[1..], FirstColumn(lines[0]))) || RepeatedChromosome(lines[1..])
  {
    var tail := lines[1..];
    var i, j :| 0 <= i < j < |lines| && IsMappingRow(lines[i]) && IsMappingRow(lines[j])
                && FirstColumn(lines[i]) == FirstColumn(lines[j]);
    assert tail[j - 1] == lines[j];
    if i > 0 {
      assert tail[i - 1] == lines[i];
    }
  }

  /** The first row's key again in the rest is a repeat. */
  lemma HeadRepeats(lines: seq<string>)
    requires |lines| > 0 && IsMappingRow(lines[0]) && KeyInRows(lines[1..], FirstColumn(lines[0]))
    ensures RepeatedChromosome(lines)
  {
    var tail := lines[1..];
    var j :| 0 <= j < |tail| && IsMappingRow(tail[j]) && FirstColumn(tail[j]) == FirstColumn(lines[0]);
    assert lines[j + 1] == tail[j];
  }

  /** A repeat in the rest is a repeat. */
  lemma TailRepeats(lines: seq<string>)
    requires |lines| > 0 && RepeatedChromosome(lines[1..])
    ensures RepeatedChromosome(lines)
  {
    var tail := lines[1..];
    var i, j :| 0 <= i < j < |tail| && IsMappingRow(tail[i]) && IsMappingRow(tail[j])
                && FirstColumn(tail[i]) == FirstColumn(tail[j]);
    assert lines[i + 1] == tail[i] && lines[j + 1] == tail[j];
  }

  /** The pairs are exactly the rows' pairs. */
  lemma {:induction false} MappingPairsRows(lines: seq<string>)
    ensures forall p :: p in MappingPairs(lines) <==> exists i :: 0 <= i < |lines| && IsMappingRow(lines[i]) && RowPair(lines[i]) == p
  {
    if |lines| > 0 {
      var tail := lines[1..];
      MappingPairsRows(tail);
      var head := if IsMappingRow(lines[0]) then [RowPair(lines[0])] else [];
      var rest := MappingPairs(tail);
      var pairs := MappingPairs(lines);
      assert pairs == head + rest;
      forall p ensures p in pairs <==> exists i :: 0 <= i < |lines| && IsMappingRow(lines[i]) && RowPair(lines[i]) == p
      {
        if p in rest {
          var i :| 0 <= i < |tail| && IsMappingRow(tail[i]) && RowPair(tail[i]) == p;
          assert lines[i + 1] == tail[i];
        }
        if exists i :: 0 <= i < |lines| && IsMappingRow(lines[i]) && RowPair(lines[i]) == p {
          var i :| 0 <= i < |lines| && IsMappingRow(lines[i]) && RowPair(lines[i]) == p;
          if i > 0 {
            assert tail[i - 1] == lines[i];
          }
        }
      }
    }
  }

  /** The pairs' keys are the rows' first columns. */
  lemma MappingPairsKeys(lines: seq<string>)
    ensures forall k :: HasKey(MappingPairs(lines), k) <==> KeyInRows(lines, k)
  {
    var pairs := MappingPairs(lines);
    MappingPairsRows(lines);
    forall k ensures HasKey(pairs, k) <==> KeyInRows(lines, k)
    {
      if HasKey(pairs, k) {
        var j :| 0 <= j < |pairs| && pairs[j].0 == k;
        assert pairs[j] in pairs;
      }
      if KeyInRows(lines, k) {
        var i :| 0 <= i < |lines| && IsMappingRow(lines[i]) && FirstColumn(lines[i]) == k;
        assert RowPair(lines[i]) in pairs;
        var j :| 0 <= j < |pairs| && pairs[j] == RowPair(lines[i]);
        assert pairs[j].0 == k;
      }
    }
  }

  /** The pairs' keys are distinct exactly when no chromosome repeats in the table. */
  lemma {:induction false} MappingPairsDistinct(lines: seq<string>)
    ensures DistinctKeys(MappingPairs(lines)) <==> !RepeatedChromosome(lines)
  {
    if |lines| > 0 {
      var tail := lines[1..];
      MappingPairsDistinct(tail);
      RepeatedHeadTail(lines);
      var rest := MappingPairs(tail);
      if IsMappingRow(lines[0]) {
        assert MappingPairs(lines) == [RowPair(lines[0])] + rest;
        MappingPairsKeys(tail);
        DistinctCons(RowPair(lines[0]), rest);
      } else {
        assert MappingPairs(lines) == rest;
      }
    }
  }

  /** `File.ReadAllLines(path)` turned into a dictionary from column 0 to column 1. */
  function LoadMappings(files: TextFiles, path: string): Result<map<string, string>, LoadError>
  {
    if path !in files then Failure(FileNotFound(path))
    else match ToDictionary(MappingPairs(files[path]))
      case Success(m) => Success(m)
      case Failure(e) => Failure(DuplicateChromosome(e.key))
  }

  /** `UCSC2EnsemblChromosomeMappings` and `Ensembl2UCSCChromosomeMappings`. */
  function ChromosomeMappings(files: TextFiles, spritzDirectory: string, reference: string,
                              direction: MappingDirection): Result<map<string, string>, LoadError>
  {
    LoadMappings(files, MappingTablePath(spritzDirectory, reference, direction))
  }

  /**
   * A loaded table maps exactly the first columns of its rows (lines with two or
   * more columns), each to the row's second column; loading fails exactly when the
   * file is missing or two rows share a first column.
   */
  lemma LoadedMappings(files: TextFiles, path: string)
    ensures LoadMappings(files, path).Failure?
        <==> path !in files || RepeatedChromosome(files[path])
    ensures LoadMappings(files, path).Success? ==>
      var m := LoadMappings(files, path).value;
      && (forall i :: 0 <= i < |files[path]| && IsMappingRow(files[path][i]) ==>
            FirstColumn(files[path][i]) in m && m[FirstColumn(files[path][i])] == Split(files[path][i], '\t')[1])
      && (forall k :: k in m <==> KeyInRows(files[path], k))
  {
    if path in files {
      var lines := files[path];
      var pairs := MappingPairs(lines);
      MappingPairsRows(lines);
      MappingPairsKeys(lines);
      MappingPairsDistinct(lines);
      ToDictionarySucceeds(pairs);
      if ToDictionary(pairs).Success? {
        ToDictionaryContents(pairs);
        var m := ToDictionary(pairs).value;
        forall i | 0 <= i < |lines| && IsMappingRow(lines[i])
          ensures FirstColumn(lines[i]) in m && m[FirstColumn(lines[i])] == Split(lines[i], '\t')[1]
        {
          assert RowPair(lines[i]) in pairs;
          var j :| 0 <= j < |pairs| && pairs[j] == RowPair(lines[i]);
        }
      }
    }
  }

  /** Every reference other than GRCh37, recognised or not, reads the GRCh38 tables. */
  lemma MappingTableChoice(reference: string, direction: MappingDirection)
    ensures RecognizeReference(reference) != Some(GRCh37) ==>
      MappingTableName(reference, direction) == MappingTableName("GRCh38", direction)
  {
    RecognizeReferenceCases(reference);
    assert RecognizeReference("GRCh38") == Some(GRCh38) by {
      assert EqualsIgnoreCase("GRCh38", "GRCh38");
      assert !EqualsIgnoreCase("GRCh38", "GRCh37") by { assert ToLower("GRCh38"[5]) != ToLower("GRCh37"[5]); }
    }
  }

  /**
   * The lines a converter writes: the input up to its first empty line, without
   * '#' comments and without the rows `translate` drops, each kept row written as
   * its translated columns joined by tabs.
   */
  function TranslatedLines(translate: seq<string> -> Option<seq<string>>, lines: seq<string>): seq<string>
  {
    if |lines| == 0 || lines[0] == "" then []
    else
      var rest := TranslatedLines(translate, lines[1..]);
      if StartsWith(lines[0], "#") then rest
      else match translate(Split(lines[0], '\t'))
        case Some(columns) => [Join(columns, "\t")] + rest
        case None => rest
  }

  /** What one line contributes when it is not empty. */
  function TranslatedLine(translate: seq<string> -> Option<seq<string>>, line: string): seq<string>
  {
    if StartsWith(line, "#") then []
    else match translate(Split(line, '\t'))
      case Some(columns) => [Join(columns, "\t")]
      case None => []
  }

  /** The rows before the first empty line are translated one by one, in order. */
  lemma {:induction false} TranslatedLinesAppend(translate: seq<string> -> Option<seq<string>>, a: seq<string>, b: seq<string>)
    requires "" !in a
    ensures TranslatedLines(translate, a + b) == TranslatedLines(translate, a) + TranslatedLines(translate, b)
  {
    if |a| > 0 {
      assert (a + b)[1..] == a[1..] + b;
      TranslatedLinesAppend(translate, a[1..], b);
    } else {
      assert a + b == b;
    }
  }

  /** One nonempty line gives its own translation. */
  lemma TranslatedLinesSingle(translate: seq<string> -> Option<seq<string>>, line: string)
    requires line != ""
    ensures TranslatedLines(translate, [line]) == TranslatedLine(translate, line)
  {
    assert [line][1..] == [];
  }

  /** Nothing after the first empty line is read. */
  lemma TranslatedLinesStop(translate: seq<string> -> Option<seq<string>>, a: seq<string>, b: seq<string>)
    requires "" !in a
    ensures TranslatedLines(translate, a + [""] + b) == TranslatedLines(translate, a)
  {
    TranslatedLinesAppend(translate, a, [""] + b);
    assert a + [""] + b == a + ([""] + b);
  }

  /** The converters write at most one line per line read. */
  lemma {:induction false} TranslatedLinesLength(translate: seq<string> -> Option<seq<string>>, lines: seq<string>)
    ensures |TranslatedLines(translate, lines)| <= |lines|
  {
    if |lines| > 0 && lines[0] != "" {
      TranslatedLinesLength(translate, lines[1..]);
    }
  }

  /**
   * The read-and-write loop of both converters: reads lines until the input ends or
   * an empty line comes, skips comments, and writes each row `translate` keeps.
   */
  method TranslateFirstColumns(translate: seq<string> -> Option<seq<string>>, lines: seq<string>)
    returns (output: seq<string>)
    ensures output == TranslatedLines(translate, lines)
  {
    output := [];
    var i := 0;
    while i < |lines| && lines[i] != ""
      invariant 0 <= i <= |lines|
      invariant output + TranslatedLines(translate, lines[i..]) == TranslatedLines(translate, lines)
    {
      var line := lines[i];
      assert lines[i..][1..] == lines[i + 1..];
      i := i + 1;
      if StartsWith(line, "#") {
        continue;
      }
      var columns := Split(line, '\t');
      match translate(columns)
      case None =>
        continue;
      case Some(written) =>
        output := output + [Join(written, "\t")];
    }
  }

  /** The Ensembl-to-UCSC rule for one row's columns. */
  function Ensembl2UcscColumns(e2u: map<string, string>, u2e: map<string, string>, columns: seq<string>)
    : Option<seq<string>>
  {
    if |columns| == 0 then None
    else if columns[0] in e2u && e2u[columns[0]] != "" then Some(columns[0 := e2u[columns[0]]])
    else if columns[0] in u2e && u2e[columns[0]] != "" then Some(columns)
    else None
  }

  /** The UCSC-to-Ensembl rule for one row's columns, without the nonempty checks. */
  function Ucsc2EnsemblColumns(e2u: map<string, string>, u2e: map<string, string>, columns: seq<string>)
    : Option<seq<string>>
  {
    if |columns| == 0 then None
    else if columns[0] in u2e then Some(columns[0 := u2e[columns[0]]])
    else if columns[0] in e2u then Some(columns)
    else None
  }

  /** Map values without tabs, as every loaded table's are. */
  predicate TabFreeValues(m: map<string, string>)
  {
    forall k :: k in m ==> '\t' !in m[k]
  }

  /** A loaded table's values are single columns, free of tabs. */
  lemma LoadedValuesTabFree(files: TextFiles, path: string)
    requires LoadMappings(files, path).Success?
    ensures TabFreeValues(LoadMappings(files, path).value)
  {
    LoadedMappings(files, path);
    var m := LoadMappings(files, path).value;
    forall k | k in m ensures '\t' !in m[k] {
      var i :| 0 <= i < |files[path]| && IsMappingRow(files[path][i]) && FirstColumn(files[path][i]) == k;
    }
  }

  /** Helper: replacing the first column of a row by a tab-free name keeps the other columns. */
  lemma ReplaceFirstColumn(line: string, name: string)
    requires '\t' !in name
    ensures var columns := Split(line, '\t');
      Split(Join(columns[0 := name], "\t"), '\t') == [name] + columns[1..]
  {
    var columns := Split(line, '\t');
    var updated := columns[0 := name];
    assert updated == [name] + columns[1..];
    SplitJoin(updated, '\t');
  }

  /**
   * Ensembl to UCSC, one row: kept exactly when its first column has a nonempty
   * UCSC name or is itself a UCSC name with a nonempty Ensembl name; a translated
   * row has the UCSC name first and its other columns unchanged; a row already in
   * UCSC naming is written as it was read.
   */
  lemma Ensembl2UcscRow(e2u: map<string, string>, u2e: map<string, string>, line: string)
    requires TabFreeValues(e2u)
    ensures var columns := Split(line, '\t');
      var k := columns[0];
      var r := Ensembl2UcscColumns(e2u, u2e, columns);
      && (r.Some? <==> (k in e2u && e2u[k] != "") || (k in u2e && u2e[k] != ""))
      && (k in e2u && e2u[k] != "" ==> Split(Join(r.value, "\t"), '\t') == [e2u[k]] + columns[1..])
      && (!(k in e2u && e2u[k] != "") && k in u2e && u2e[k] != "" ==> Join(r.value, "\t") == line)
  {
    var columns := Split(line, '\t');
    JoinSplit(line, '\t');
    if columns[0] in e2u && e2u[columns[0]] != "" {
      ReplaceFirstColumn(line, e2u[columns[0]]);
    }
  }

  /**
   * UCSC to Ensembl, one row: kept exactly when its first column is a known UCSC
   * or Ensembl name; a UCSC name is replaced by its Ensembl name, even an empty
   * one, and the other columns are unchanged.
   */
  lemma Ucsc2EnsemblRow(e2u: map<string, string>, u2e: map<string, string>, line: string)
    requires TabFreeValues(u2e)
    ensures var columns := Split(line, '\t');
      var k := columns[0];
      var r := Ucsc2EnsemblColumns(e2u, u2e, columns);
      && (r.Some? <==> k in u2e || k in e2u)
      && (k in u2e ==> Split(Join(r.value, "\t"), '\t') == [u2e[k]] + columns[1..])
      && (k !in u2e && k in e2u ==> Join(r.value, "\t") == line)
  {
    var columns := Split(line, '\t');
    JoinSplit(line, '\t');
    if columns[0] in u2e {
      ReplaceFirstColumn(line, u2e[columns[0]]);
    }
  }

  /** Where both converters write: "<dir>/<name>.ucsc<ext>". */
  function UcscOutputPath(inputPath: string): string
  {
    InsertBeforeExtension(inputPath, ".ucsc")
  }

  /** Both mapping tables, Ensembl-to-UCSC first, as both converters load them. */
  function BothMappings(files: TextFiles, spritzDirectory: string, reference: string)
    : Result<(map<string, string>, map<string, string>), LoadError>
  {
    match ChromosomeMappings(files, spritzDirectory, reference, EnsemblToUcsc)
    case Failure(e) => Failure(e)
    case Success(e2u) =>
      match ChromosomeMappings(files, spritzDirectory, reference, UcscToEnsembl)
      case Failure(e) => Failure(e)
      case Success(u2e) => Success((e2u, u2e))
  }

  /** A converter's result: the output path and the files afterwards. */
  datatype Converted = Converted(outputPath: string, files: TextFiles)

  /**
   * `ConvertFirstColumnEnsembl2UCSC`: loads both tables, reads the input, and writes
   * the translated rows to `UcscOutputPath(inputPath)`, touching no other file.
   */
  method ConvertFirstColumnEnsembl2UCSC(files: TextFiles, spritzDirectory: string, reference: string,
                                        inputPath: string)
    returns (r: Result<Converted, LoadError>)
    ensures r.Failure? <==> BothMappings(files, spritzDirectory, reference).Failure? || inputPath !in files
    ensures r.Success? ==>
      var (e2u, u2e) := BothMappings(files, spritzDirectory, reference).value;
      && r.value.outputPath == UcscOutputPath(inputPath)
      && r.value.files == files[r.value.outputPath :=
           TranslatedLines(columns => Ensembl2UcscColumns(e2u, u2e, columns), files[inputPath])]
  {
    var mappings := BothMappings(files, spritzDirectory, reference);
    if mappings.Failure? {
      return Failure(mappings.error);
    }
    var (e2u, u2e) := mappings.value;
    var outputPath := UcscOutputPath(inputPath);
    if inputPath !in files {
      return Failure(FileNotFound(inputPath));
    }
    var written := TranslateFirstColumns(columns => Ensembl2UcscColumns(e2u, u2e, columns), files[inputPath]);
    r := Success(Converted(outputPath, files[outputPath := written]));
  }

  /** `ConvertFirstColumnUCSC2Ensembl`: the mirror image, to the same output path. */
  method ConvertFirstColumnUCSC2Ensembl(files: TextFiles, spritzDirectory: string, reference: string,
                                        inputPath: string)
    returns (r: Result<Converted, LoadError>)
    ensures r.Failure? <==> BothMappings(files, spritzDirectory, reference).Failure? || inputPath !in files
    ensures r.Success? ==>
      var (e2u, u2e) := BothMappings(files, spritzDirectory, reference).value;
      && r.value.outputPath == UcscOutputPath(inputPath)
      && r.value.files == files[r.value.outputPath :=
           TranslatedLines(columns => Ucsc2EnsemblColumns(e2u, u2e, columns), files[inputPath])]
  {
    var mappings := BothMappings(files, spritzDirectory, reference);
    if mappings.Failure? {
      return Failure(mappings.error);
    }
    var (e2u, u2e) := mappings.value;
    var outputPath := UcscOutputPath(inputPath);
    if inputPath !in files {
      return Failure(FileNotFound(inputPath));
    }
    var written := TranslateFirstColumns(columns => Ucsc2EnsemblColumns(e2u, u2e, columns), files[inputPath]);
    r := Success(Converted(outputPath, files[outputPath := written]));
  }

  /**
   * For an ordinary input path the output is a different file in the same
   * directory, so converting never changes the input file.
   */
  lemma ConversionKeepsInput(files: TextFiles, inputPath: string, written: seq<string>)
    requires SimpleDir(inputPath) && NoTrailingDot(inputPath) && GetFileNameWithoutExtension(inputPath) != ""
    requires inputPath in files
    ensures UcscOutputPath(inputPath) != inputPath
    ensures GetDirectoryName(UcscOutputPath(inputPath)) == GetDirectoryName(inputPath)
    ensures files[UcscOutputPath(inputPath) := written][inputPath] == files[inputPath]
  {
    UcscOutputBeside(inputPath);
    var outputPath := UcscOutputPath(inputPath);
    assert outputPath != inputPath;
  }

  /** Helper: the ".ucsc" output differs from its input and shares its directory. */
  lemma UcscOutputBeside(inputPath: string)
    requires SimpleDir(inputPath) && NoTrailingDot(inputPath) && GetFileNameWithoutExtension(inputPath) != ""
    ensures UcscOutputPath(inputPath) != inputPath
    ensures GetDirectoryName(UcscOutputPath(inputPath)) == GetDirectoryName(inputPath)
  {
    var infix := ".ucsc";
    assert '/' !in infix && infix != "";
    InsertBeforeExtensionShape(inputPath, infix);
    InsertBeforeExtensionSibling(inputPath, infix);
  }

  /** One chromosome or contig of a genome FASTA. */
  datatype Chromosome = Chromosome(friendlyName: string, sequence: string)

  /** A protein of the Ensembl protein FASTA, as the FASTA loader reads it. */
  datatype Protein = Protein(accession: string, fullName: string, baseSequence: string)

  /** What `PrepareEnsemblGenomeFasta` does besides setting its fields. */
  datatype GenomeEffect = RunScript(script: Script) | WriteFasta(path: string, chromosomes: seq<Chromosome>)

  /** `"^a\|^b\|...\|^#"` between double quotes: any line starting with a contig name or '#'. */
  function GrepQuery(names: seq<string>): string
  {
    "\"^" + Join(names + ["#"], "\\|^") + "\""
  }

  /** Each alternative anchored at the start of the line. */
  function Anchored(names: seq<string>): (r: seq<string>)
    ensures |r| == |names| && forall i :: 0 <= i < |names| ==> r[i] == "^" + names[i]
  {
    if |names| == 0 then [] else ["^" + names[0]] + Anchored(names[1..])
  }

  /** Helper: joining with "\|^" after a leading "^" is joining the anchored names with "\|". */
  lemma {:induction false} AnchoredJoin(names: seq<string>)
    requires |names| > 0
    ensures "^" + Join(names, "\\|^") == Join(Anchored(names), "\\|")
  {
    if |names| > 1 {
      AnchoredJoin(names[1..]);
      var rest := Join(names[1..], "\\|^");
      assert Anchored(names) == ["^" + names[0]] + Anchored(names[1..]);
      assert "^" + (names[0] + "\\|^" + rest) == ("^" + names[0]) + "\\|" + ("^" + rest);
    }
  }

  /** The query is the alternation of every contig name, and '#', each anchored at the line start. */
  lemma GrepQueryAlternatives(names: seq<string>)
    ensures GrepQuery(names) == "\"" + Join(Anchored(names + ["#"]), "\\|") + "\""
  {
    AnchoredJoin(names + ["#"]);
    assert "\"^" + Join(names + ["#"], "\\|^") == "\"" + ("^" + Join(names + ["#"], "\\|^"));
  }

  /** The contig names of a genome, in order. */
  function ContigNames(genome: seq<Chromosome>): (names: seq<string>)
    ensures |names| == |genome| && forall i :: 0 <= i < |genome| ==> names[i] == genome[i].friendlyName
  {
    seq(|genome|, i requires 0 <= i < |genome| => genome[i].friendlyName)
  }

  /** The filtered gene model's path and the script that writes it. */
  datatype FilteredGeneModel = FilteredGeneModel(filteredGeneModel: string, script: Script)

  /**
   * `FilterGeneModel`: keeps the gene-model lines on the genome's contigs, and the
   * header lines, in "<dir>/<name>.filtered<ext>".
   */
  function FilterGeneModel(analysisDirectory: string, geneModelGtfOrGff: string, genome: seq<Chromosome>,
                           convertWindowsPath: string -> string): FilteredGeneModel
  {
    var names := ContigNames(genome);
    var filtered := InsertBeforeExtension(geneModelGtfOrGff, ".filtered");
    FilteredGeneModel(filtered, Script(analysisDirectory, "FilterGeneModel.bash",
      ["grep " + GrepQuery(names) + " " + convertWindowsPath(geneModelGtfOrGff) + " > " + convertWindowsPath(filtered)]))
  }

  /**
   * The filter greps the gene model into a new file beside it in the same
   * directory, with the ".filtered" infix before the extension, by one command
   * whose pattern anchors each contig name of the genome and '#'.
   */
  lemma FilterGeneModelOutput(analysisDirectory: string, geneModel: string, genome: seq<Chromosome>,
                              convertWindowsPath: string -> string)
    requires SimpleDir(geneModel) && NoTrailingDot(geneModel) && GetFileNameWithoutExtension(geneModel) != ""
    ensures var r := FilterGeneModel(analysisDirectory, geneModel, genome, convertWindowsPath);
      && r.filteredGeneModel != geneModel
      && GetDirectoryName(r.filteredGeneModel) == GetDirectoryName(geneModel)
      && GetFileName(r.filteredGeneModel)
         == GetFileNameWithoutExtension(geneModel) + ".filtered" + GetExtension(geneModel)
  {
    assert FilterGeneModel(analysisDirectory, geneModel, genome, convertWindowsPath).filteredGeneModel
        == InsertBeforeExtension(geneModel, ".filtered");
    FilteredBeside(geneModel);
  }

  /** Helper: the ".filtered" file differs from the gene model and lies beside it. */
  lemma FilteredBeside(geneModel: string)
    requires SimpleDir(geneModel) && NoTrailingDot(geneModel) && GetFileNameWithoutExtension(geneModel) != ""
    ensures var filtered := InsertBeforeExtension(geneModel, ".filtered");
      && filtered != geneModel
      && GetDirectoryName(filtered) == GetDirectoryName(geneModel)
      && GetFileName(filtered) == GetFileNameWithoutExtension(geneModel) + ".filtered" + GetExtension(geneModel)
  {
    var infix := ".filtered";
    assert '/' !in infix && infix != "";
    InsertBeforeExtensionShape(geneModel, infix);
    InsertBeforeExtensionSibling(geneModel, infix);
  }

  /** The characters of `[A-Za-z0-9_.]`. */
  predicate AccessionChar(c: char)
  {
    ('A' <= c <= 'Z') || ('a' <= c <= 'z') || ('0' <= c <= '9') || c == '_' || c == '.'
  }

  /** The longest prefix of `s` made of accession characters, as a greedy `[A-Za-z0-9_.]+` takes it. */
  function AccessionRun(s: string): (r: string)
    ensures |r| <= |s| && r == s[..|r|]
    ensures forall j :: 0 <= j < |r| ==> AccessionChar(r[j])
    ensures |r| < |s| ==> !AccessionChar(s[|r|])
  {
    if |s| == 0 || !AccessionChar(s[0]) then "" else [s[0]] + AccessionRun(s[1..])
  }

  const TranscriptTag: string := "transcript:"

  /** `transcript:` followed by at least one accession character starts at position `i`. */
  predicate TranscriptAt(s: string, i: nat)
  {
    i + |TranscriptTag| < |s| && s[i..i + |TranscriptTag|] == TranscriptTag && AccessionChar(s[i + |TranscriptTag|])
  }

  /**
   * The second group of the first match of `(transcript:)([A-Za-z0-9_.]+)` at or
   * after position `i`, or "" when there is none.
   */
  function TranscriptFrom(s: string, i: nat): string
    requires i <= |s|
    decreases |s| - i
  {
    if i == |s| then ""
    else if TranscriptAt(s, i) then AccessionRun(s[i + |TranscriptTag|..])
    else TranscriptFrom(s, i + 1)
  }

  /** The transcript accession the regex finds in a protein's full name, or "". */
  function TranscriptAccession(fullName: string): string
  {
    TranscriptFrom(fullName, 0)
  }

  /** Helper: a match yields a nonempty accession. */
  lemma TranscriptRunNonEmpty(s: string, i: nat)
    requires TranscriptAt(s, i)
    ensures AccessionRun(s[i + |TranscriptTag|..]) != ""
  {
    var t := s[i + |TranscriptTag|..];
    assert t[0] == s[i + |TranscriptTag|];
  }

  /** No accession is found exactly when no position holds a match. */
  lemma {:induction false} TranscriptFromNone(s: string, i: nat)
    requires i <= |s|
    decreases |s| - i
    ensures TranscriptFrom(s, i) == "" <==> forall k :: i <= k <= |s| ==> !TranscriptAt(s, k)
  {
    if i < |s| {
      if TranscriptAt(s, i) {
        TranscriptRunNonEmpty(s, i);
      } else {
        TranscriptFromNone(s, i + 1);
      }
    }
  }

  /** With the first match at `j`, the accession is the greedy run after "transcript:" there. */
  lemma {:induction false} TranscriptFromFirst(s: string, i: nat, j: nat)
    requires i <= j <= |s| && TranscriptAt(s, j)
    requires forall k :: i <= k < j ==> !TranscriptAt(s, k)
    decreases j - i
    ensures TranscriptFrom(s, i) == AccessionRun(s[j + |TranscriptTag|..])
  {
    if i < j {
      TranscriptFromFirst(s, i + 1, j);
    }
  }

  /** Helper: the greedy run stops at the first character that is not an accession character. */
  lemma {:induction false} AccessionRunOf(acc: string, post: string)
    requires forall j :: 0 <= j < |acc| ==> AccessionChar(acc[j])
    requires post == "" || !AccessionChar(post[0])
    ensures AccessionRun(acc + post) == acc
  {
    if |acc| > 0 {
      assert (acc + post)[1..] == acc[1..] + post;
      AccessionRunOf(acc[1..], post);
    } else {
      assert acc + post == post;
    }
  }

  /** A full name starting with "transcript:<accession>" yields that accession. */
  lemma TranscriptAccessionOf(acc: string, post: string)
    requires acc != "" && forall j :: 0 <= j < |acc| ==> AccessionChar(acc[j])
    requires post == "" || !AccessionChar(post[0])
    ensures TranscriptAccession(TranscriptTag + acc + post) == acc
  {
    var s := TranscriptTag + acc + post;
    assert s[..|TranscriptTag|] == TranscriptTag;
    assert s[|TranscriptTag|..] == acc + post;
    assert s[|TranscriptTag|] == acc[0];
    assert TranscriptAt(s, 0);
    AccessionRunOf(acc, post);
  }

  /** The accession pairs, then the transcript pairs, in the order the dictionary adds them. */
  function AccessionSequencePairs(proteins: seq<Protein>): (r: seq<(string, string)>)
    ensures |r| == 2 * |proteins|
    ensures forall i :: 0 <= i < |proteins| ==> r[i] == (proteins[i].accession, proteins[i].baseSequence)
    ensures forall i :: 0 <= i < |proteins| ==>
      r[|proteins| + i] == (TranscriptAccession(proteins[i].fullName), proteins[i].baseSequence)
  {
    seq(|proteins|, i requires 0 <= i < |proteins| => (proteins[i].accession, proteins[i].baseSequence))
    + seq(|proteins|, i requires 0 <= i < |proteins| => (TranscriptAccession(proteins[i].fullName), proteins[i].baseSequence))
  }

  /** A protein whose sequence has an unknown residue or a stop codon. */
  predicate IsBadProtein(p: Protein)
  {
    'X' in p.baseSequence || '*' in p.baseSequence
  }

  /** The accessions, and the transcript accessions, of the bad proteins. */
  function BadAccessions(proteins: seq<Protein>): set<string>
  {
    (set p | p in proteins && IsBadProtein(p) :: p.accession)
    + (set p | p in proteins && IsBadProtein(p) :: TranscriptAccession(p.fullName))
  }

  /** A protein kept as a selenoprotein: not bad by accession, and with a 'U'. */
  predicate IsSelenoprotein(p: Protein, bad: set<string>)
  {
    p.accession !in bad && 'U' in p.baseSequence
  }

  /** The selenoproteins' accession pairs, in order. */
  function SelenoPairs(proteins: seq<Protein>, bad: set<string>): seq<(string, string)>
  {
    if |proteins| == 0 then []
    else
      var p := proteins[0];
      var rest := SelenoPairs(proteins[1..], bad);
      if IsSelenoprotein(p, bad) then [(p.accession, p.baseSequence)] + rest else rest
  }

  /** No two proteins share an accession. */
  predicate DistinctAccessions(proteins: seq<Protein>)
  {
    forall i, j :: 0 <= i < j < |proteins| ==> proteins[i].accession != proteins[j].accession
  }

  /** A successful accession dictionary means the accessions alone are distinct. */
  lemma PairsDistinctAccessions(proteins: seq<Protein>)
    requires DistinctKeys(AccessionSequencePairs(proteins))
    ensures DistinctAccessions(proteins)
  {
    var pairs := AccessionSequencePairs(proteins);
    forall i, j | 0 <= i < j < |proteins| ensures proteins[i].accession != proteins[j].accession {
      assert pairs[i].0 == proteins[i].accession && pairs[j].0 == proteins[j].accession;
    }
  }

  /** Which proteins the selenoprotein list holds: exactly the good ones with a 'U'. */
  lemma {:induction false} SelenoPairsMembers(proteins: seq<Protein>, bad: set<string>)
    ensures forall i :: 0 <= i < |proteins| && IsSelenoprotein(proteins[i], bad) ==>
      (proteins[i].accession, proteins[i].baseSequence) in SelenoPairs(proteins, bad)
    ensures forall q :: q in SelenoPairs(proteins, bad) ==>
      exists i :: 0 <= i < |proteins| && IsSelenoprotein(proteins[i], bad)
        && q == (proteins[i].accession, proteins[i].baseSequence)
  {
    if |proteins| > 0 {
      var tail := proteins[1..];
      SelenoPairsMembers(tail, bad);
      forall i | 1 <= i < |proteins| ensures proteins[i] == tail[i - 1] { }
      forall q | q in SelenoPairs(tail, bad)
        ensures exists i ::
                  0 <= i < |proteins| && IsSelenoprotein(proteins[i], bad)
                  && q == (proteins[i].accession, proteins[i].baseSequence)
      {
        var i :| 0 <= i < |tail| && IsSelenoprotein(tail[i], bad) && q == (tail[i].accession, tail[i].baseSequence);
        assert proteins[i + 1] == tail[i];
      }
    }
  }

  /** Helper: distinct accessions give a selenoprotein list without a repeated key. */
  lemma {:induction false} SelenoPairsDistinct(proteins: seq<Protein>, bad: set<string>)
    requires DistinctAccessions(proteins)
    ensures DistinctKeys(SelenoPairs(proteins, bad))
  {
    if |proteins| > 0 {
      var p := proteins[0];
      var tail := proteins[1..];
      assert DistinctAccessions(tail) by {
        forall i, j | 0 <= i < j < |tail| ensures tail[i].accession != tail[j].accession {
          assert tail[i] == proteins[i + 1] && tail[j] == proteins[j + 1];
        }
      }
      SelenoPairsDistinct(tail, bad);
      var rest := SelenoPairs(tail, bad);
      if IsSelenoprotein(p, bad) {
        SelenoPairsMembers(tail, bad);
        forall j | 0 <= j < |rest| ensures rest[j].0 != p.accession {
          assert rest[j] in rest;
          var m :| 0 <= m < |tail| && IsSelenoprotein(tail[m], bad) && rest[j] == (tail[m].accession, tail[m].baseSequence);
          assert proteins[m + 1] == tail[m] && proteins[0] == p;
        }
        DistinctCons((p.accession, p.baseSequence), rest);
      }
    }
  }

  /** Whenever the accession dictionary is built, the selenoprotein dictionary is too. */
  lemma SelenoDictionarySucceeds(proteins: seq<Protein>)
    requires ToDictionary(AccessionSequencePairs(proteins)).Success?
    ensures ToDictionary(SelenoPairs(proteins, BadAccessions(proteins))).Success?
  {
    ToDictionarySucceeds(AccessionSequencePairs(proteins));
    PairsDistinctAccessions(proteins);
    SelenoPairsDistinct(proteins, BadAccessions(proteins));
    ToDictionarySucceeds(SelenoPairs(proteins, BadAccessions(proteins)));
  }

  /**
   * Two proteins whose full names carry no transcript accession both add the key
   * "", so the accession dictionary throws.
   */
  lemma UntranscribedProteinsThrow(proteins: seq<Protein>, i: nat, j: nat)
    requires i < j < |proteins|
    requires TranscriptAccession(proteins[i].fullName) == "" && TranscriptAccession(proteins[j].fullName) == ""
    ensures ToDictionary(AccessionSequencePairs(proteins)).Failure?
  {
    var pairs := AccessionSequencePairs(proteins);
    var n := |proteins|;
    assert pairs[n + i].0 == pairs[n + j].0;
    ToDictionarySucceeds(pairs);
  }

  /** Every accession and every transcript accession maps to its protein's sequence. */
  lemma AccessionTable(proteins: seq<Protein>)
    requires ToDictionary(AccessionSequencePairs(proteins)).Success?
    ensures var m := ToDictionary(AccessionSequencePairs(proteins)).value;
      forall i :: 0 <= i < |proteins| ==>
        (&& proteins[i].accession in m && m[proteins[i].accession] == proteins[i].baseSequence
         && TranscriptAccession(proteins[i].fullName) in m
         && m[TranscriptAccession(proteins[i].fullName)] == proteins[i].baseSequence)
  {
    var pairs := AccessionSequencePairs(proteins);
    ToDictionaryContents(pairs);
    forall i | 0 <= i < |proteins|
      ensures pairs[i] == (proteins[i].accession, proteins[i].baseSequence)
      ensures pairs[|proteins| + i] == (TranscriptAccession(proteins[i].fullName), proteins[i].baseSequence)
    { }
  }

  /** A string is a bad accession exactly when a bad protein carries it as accession or transcript. */
  lemma BadAccessionsMembers(proteins: seq<Protein>, k: string)
    ensures k in BadAccessions(proteins) <==>
      exists i :: 0 <= i < |proteins| && IsBadProtein(proteins[i])
        && (k == proteins[i].accession || k == TranscriptAccession(proteins[i].fullName))
  {
    if k in BadAccessions(proteins) {
      var p :| p in proteins && IsBadProtein(p) && (k == p.accession || k == TranscriptAccession(p.fullName));
      var i :| 0 <= i < |proteins| && proteins[i] == p;
    }
  }

  /** Helper: the selenoprotein dictionary for any set of bad accessions. */
  lemma SelenoDictionary(proteins: seq<Protein>, bad: set<string>)
    requires DistinctAccessions(proteins)
    ensures ToDictionary(SelenoPairs(proteins, bad)).Success?
    ensures var seleno := ToDictionary(SelenoPairs(proteins, bad)).value;
      forall i :: 0 <= i < |proteins| && IsSelenoprotein(proteins[i], bad) ==>
        proteins[i].accession in seleno && seleno[proteins[i].accession] == proteins[i].baseSequence
    ensures var seleno := ToDictionary(SelenoPairs(proteins, bad)).value;
      forall k :: k in seleno ==> exists i :: 0 <= i < |proteins| && SelenoEntry(proteins[i], bad, k, seleno)
  {
    var sp := SelenoPairs(proteins, bad);
    SelenoPairsDistinct(proteins, bad);
    ToDictionarySucceeds(sp);
    SelenoPairsMembers(proteins, bad);
    ToDictionaryContents(sp);
    var seleno := ToDictionary(sp).value;
    forall i | 0 <= i < |proteins| && IsSelenoprotein(proteins[i], bad)
      ensures proteins[i].accession in seleno && seleno[proteins[i].accession] == proteins[i].baseSequence
    {
      var j :| 0 <= j < |sp| && sp[j] == (proteins[i].accession, proteins[i].baseSequence);
    }
    forall k | k in seleno ensures exists i :: 0 <= i < |proteins| && SelenoEntry(proteins[i], bad, k, seleno) {
      assert HasKey(sp, k);
      var j :| 0 <= j < |sp| && sp[j].0 == k;
      assert sp[j] in sp;
      var i :| 0 <= i < |proteins| && IsSelenoprotein(proteins[i], bad)
        && sp[j] == (proteins[i].accession, proteins[i].baseSequence);
      assert SelenoEntry(proteins[i], bad, k, seleno);
    }
  }

  /** The dictionary entry for `k` comes from selenoprotein `p`. */
  predicate SelenoEntry(p: Protein, bad: set<string>, k: string, seleno: map<string, string>)
  {
    IsSelenoprotein(p, bad) && p.accession == k && k in seleno && seleno[k] == p.baseSequence
  }

  /** Whether `PrepareEnsemblGenomeFasta` decompresses its input first. */
  predicate IsCompressed(genomeFasta: string)
  {
    GetExtension(genomeFasta) == ".gz" || GetExtension(genomeFasta) == ".tgz"
  }

  /** The FASTA the genome is read from: the input without ".gz"/".tgz" when compressed. */
  function UncompressedPath(genomeFasta: string): string
  {
    if IsCompressed(genomeFasta) then RemoveExtension(genomeFasta) else genomeFasta
  }

  /** "<dir>/<name>.karyotypic.fa" beside the genome FASTA. */
  function KaryotypicPath(genomeFasta: string): string
  {
    ReplaceExtension(genomeFasta, ".karyotypic.fa")
  }

  /**
   * The decompressed FASTA is the compressed one's path without its last
   * extension, in the same directory.
   */
  lemma UncompressedPathParts(genomeFasta: string)
    requires NoTrailingDot(genomeFasta) && IsCompressed(genomeFasta)
    ensures UncompressedPath(genomeFasta) + GetExtension(genomeFasta) == genomeFasta
    ensures GetDirectoryName(UncompressedPath(genomeFasta)) == GetDirectoryName(genomeFasta)
  {
    RemoveExtensionParts(genomeFasta);
  }

  /**
   * The karyotypic copy lies beside the FASTA it is made from, under a different
   * name, so writing it never overwrites that FASTA.
   */
  lemma KaryotypicPathBeside(genomeFasta: string)
    requires SimpleDir(genomeFasta) && NoTrailingDot(genomeFasta)
    ensures GetDirectoryName(KaryotypicPath(genomeFasta)) == GetDirectoryName(genomeFasta)
    ensures GetFileName(KaryotypicPath(genomeFasta)) == GetFileNameWithoutExtension(genomeFasta) + ".karyotypic.fa"
    ensures KaryotypicPath(genomeFasta) != genomeFasta
  {
    var stem, ext := GetFileNameWithoutExtension(genomeFasta), GetExtension(genomeFasta);
    var suffix := ".karyotypic.fa";
    assert '/' !in suffix;
    ReplaceExtensionShape(genomeFasta, suffix);
    FileNameParts(genomeFasta);
    KaryotypicNameDiffers(stem, ext);
  }

  /** Helper: an extension has one '.', the karyotypic suffix two. */
  lemma KaryotypicNameDiffers(stem: string, ext: string)
    requires ext == "" || '.' !in ext[1..]
    ensures stem + ".karyotypic.fa" != stem + ext
  {
    var suffix := ".karyotypic.fa";
    assert suffix[11] == '.';
    if |ext| == |suffix| {
      assert ext[11] == ext[1..][10];
      assert (stem + suffix)[|stem| + 11] != (stem + ext)[|stem| + 11];
    }
  }

  class EnsemblDownloadsWrapper {
    var GenomeFastaPath: Option<string>
    var GtfGeneModelPath: Option<string>
    var Gff3GeneModelPath: Option<string>
    var ProteinFastaPath: Option<string>
    var ProteinAccessionSequence: Option<map<string, string>>
    var BadProteinAccessions: Option<set<string>>
    var SelenocysteineProteinAccessions: Option<map<string, string>>
    var EnsemblGenome: Option<seq<Chromosome>>
    var ReorderedFastaPath: Option<string>

    /** Every property starts out null. */
    constructor ()
      ensures GenomeFastaPath.None? && GtfGeneModelPath.None? && Gff3GeneModelPath.None?
      ensures ProteinFastaPath.None? && ProteinAccessionSequence.None?
      ensures BadProteinAccessions.None? && SelenocysteineProteinAccessions.None?
      ensures EnsemblGenome.None? && ReorderedFastaPath.None?
    {
      GenomeFastaPath := None;
      GtfGeneModelPath := None;
      Gff3GeneModelPath := None;
      ProteinFastaPath := None;
      ProteinAccessionSequence := None;
      BadProteinAccessions := None;
      SelenocysteineProteinAccessions := None;
      EnsemblGenome := None;
      ReorderedFastaPath := None;
    }

    /**
     * Records the four reference paths, then returns before building any script
     * when the reference is not recognised or on a dry run; otherwise returns the
     * download script.
     */
    method DownloadReferences(spritzDirectory: string, targetDirectory: string, reference: string,
                              dryRun: bool, convertWindowsPath: string -> string)
      returns (script: Option<Script>)
      modifies this`GenomeFastaPath, this`GtfGeneModelPath, this`Gff3GeneModelPath, this`ProteinFastaPath
      ensures var p := ResolveReferencePaths(targetDirectory, reference);
        && GenomeFastaPath == Some(p.genomeFasta) && GtfGeneModelPath == Some(p.gtfGeneModel)
        && Gff3GeneModelPath == Some(p.gff3GeneModel) && ProteinFastaPath == Some(p.proteinFasta)
      ensures script.None? <==> RecognizeReference(reference).None? || dryRun
      ensures script.Some? ==> script.value == DownloadScript(targetDirectory,
        ResolveReferencePaths(targetDirectory, reference), RecognizeReference(reference).value, convertWindowsPath)
    {
      var downloadGrch37 := EqualsIgnoreCase(reference, "GRCh37");
      var downloadGrch38 := EqualsIgnoreCase(reference, "GRCh38");
      RecognizeReferenceCases(reference);
      var p := ResolveReferencePaths(targetDirectory, reference);
      GenomeFastaPath := Some(p.genomeFasta);
      GtfGeneModelPath := Some(p.gtfGeneModel);
      Gff3GeneModelPath := Some(p.gff3GeneModel);
      ProteinFastaPath := Some(p.proteinFasta);
      if (!downloadGrch37 && !downloadGrch38) || dryRun {
        return None;
      }
      var a := if downloadGrch38 then GRCh38 else GRCh37;
      script := Some(DownloadScript(targetDirectory, p, a, convertWindowsPath));
    }

    /**
     * Builds the accession-to-sequence dictionary, which throws on a repeated key
     * (two proteins without a transcript accession share the key ""), and, when it
     * is built, the bad-accession set and the selenoprotein dictionary.
     */
    method GetImportantProteinAccessions(proteins: seq<Protein>) returns (thrown: Option<DictionaryError>)
      modifies this`ProteinAccessionSequence, this`BadProteinAccessions, this`SelenocysteineProteinAccessions
      ensures thrown.Some? <==> ToDictionary(AccessionSequencePairs(proteins)).Failure?
      ensures thrown.Some? ==>
        (&& ProteinAccessionSequence == old(ProteinAccessionSequence)
         && BadProteinAccessions == old(BadProteinAccessions)
         && SelenocysteineProteinAccessions == old(SelenocysteineProteinAccessions))
      ensures thrown.None? ==>
        (&& ProteinAccessionSequence.Some?
         && ToDictionary(AccessionSequencePairs(proteins)) == Success(ProteinAccessionSequence.value)
         && BadProteinAccessions == Some(BadAccessions(proteins))
         && SelenocysteineProteinAccessions.Some?
         && ToDictionary(SelenoPairs(proteins, BadAccessions(proteins))) == Success(SelenocysteineProteinAccessions.value))
    {
      var pairs := AccessionSequencePairs(proteins);
      var accessionSequence := ToDictionary(pairs);
      if accessionSequence.Failure? {
        return Some(accessionSequence.error);
      }
      ProteinAccessionSequence := Some(accessionSequence.value);
      var badOnes := BadAccessions(proteins);
      BadProteinAccessions := Some(badOnes);
      SelenoDictionarySucceeds(proteins);
      var seleno := ToDictionary(SelenoPairs(proteins, badOnes));
      SelenocysteineProteinAccessions := Some(seleno.value);
      thrown := None;
    }

    /**
     * The reading step of `PrepareEnsemblGenomeFasta`: a genome out of karyotypic
     * order is reordered and written to "<name>.karyotypic.fa" unless that file
     * exists; a genome in order is used where it is.
     */
    static method Reorder(fasta: string, fs: FileSystem, readGenome: string -> seq<Chromosome>,
                          isKaryotypic: seq<Chromosome> -> bool,
                          karyotypicOrder: seq<Chromosome> -> seq<Chromosome>)
      returns (reordered: string, genome: seq<Chromosome>, write: seq<GenomeEffect>)
      ensures var g := readGenome(fasta);
        && reordered == (if isKaryotypic(g) then fasta else KaryotypicPath(fasta))
        && genome == (if isKaryotypic(g) then g else karyotypicOrder(g))
        && write == if !isKaryotypic(g) && !Exists(fs, KaryotypicPath(fasta))
                    then [WriteFasta(KaryotypicPath(fasta), karyotypicOrder(g))] else []
    {
      reordered := KaryotypicPath(fasta);
      genome := readGenome(fasta);
      write := [];
      if !isKaryotypic(genome) {
        genome := karyotypicOrder(genome);
        if !Exists(fs, reordered) {
          write := [WriteFasta(reordered, genome)];
        }
      } else {
        reordered := fasta;
      }
    }

    /**
     * Decompresses a ".gz"/".tgz" genome FASTA, reads the genome, and when it is
     * not in karyotypic order reorders it and writes the reordered copy unless that
     * file exists already; a genome already in order is used where it is.
     */
    method PrepareEnsemblGenomeFasta(analysisDirectory: string, genomeFasta: string, fs: FileSystem,
                                     readGenome: string -> seq<Chromosome>,
                                     isKaryotypic: seq<Chromosome> -> bool,
                                     karyotypicOrder: seq<Chromosome> -> seq<Chromosome>,
                                     convertWindowsPath: string -> string)
      returns (effects: seq<GenomeEffect>)
      modifies this`ReorderedFastaPath, this`EnsemblGenome
      ensures var f := UncompressedPath(genomeFasta);
        var g := readGenome(f);
        && ReorderedFastaPath == Some(if isKaryotypic(g) then f else KaryotypicPath(f))
        && EnsemblGenome == Some(if isKaryotypic(g) then g else karyotypicOrder(g))
        && effects ==
           (if IsCompressed(genomeFasta)
            then [RunScript(Script(analysisDirectory, "Gzippy.bash", ["gunzip " + convertWindowsPath(genomeFasta)]))]
            else [])
           + (if !isKaryotypic(g) && !Exists(fs, KaryotypicPath(f))
              then [WriteFasta(KaryotypicPath(f), karyotypicOrder(g))] else [])
    {
      var gunzip: seq<GenomeEffect> := [];
      var fasta := genomeFasta;
      if IsCompressed(genomeFasta) {
        gunzip := [RunScript(Script(analysisDirectory, "Gzippy.bash", ["gunzip " + convertWindowsPath(genomeFasta)]))];
        fasta := RemoveExtension(genomeFasta);
      }
      var reordered, genome, write := Reorder(fasta, fs, readGenome, isKaryotypic, karyotypicOrder);
      effects := gunzip + write;
      ReorderedFastaPath, EnsemblGenome := Some(reordered), Some(genome);
    }
  }
}
