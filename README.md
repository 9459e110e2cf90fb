# Spritz core, modelled in Dafny

Spritz is a proteogenomics pipeline. Its command-line program takes sequencing
reads and a human genome reference and builds sample-specific protein databases.
A desktop front end generates that program's argument lists. This project
models the parts of Spritz that decide what runs, on which files, and with what
arguments:

- `SnpEffAnnotation` (`snpeff_annotation.dfy`): the interpreter of one SnpEff
  `ANN` record. It is modelled both as the constructor is written, and as the
  "VCF annotation format v1.0" lays out the record.
- `EnsemblDownloads` (`ensembl_downloads.dfy`): the Ensembl reference
  wrapper:
  - recognising GRCh37/GRCh38 and resolving the reference paths;
  - the download script;
  - the chromosome-name tables and the two first-column converters, with
    their read-and-write loop;
  - the gene-model filter;
  - the protein-accession tables;
  - preparing the genome FASTA.
- `SpritzCmd` (`spritz_cmd.dfy`): the command-line `Main`:
  - `FinishSetup` and its defaults;
  - pairing the fastq lists;
  - the command dispatch and each flow's checks;
  - the quantification loop.
- `CmdOptions` (`cmd_options.dfy`): the mutable options object `Main` works
  on.
- `EverythingRunner` (`everything_runner.dfy`): the front end's runner:
  - `AddQuotes` and `GenerateArguments`, built block by block;
  - `GenerateCommandsDry`;
  - `Run`, with its `Arguments`/`StdErr` fields.

  The argument list is proved to read back, flag by flag, as the values the
  options send.
- `Skewer` (`skewer.dfy`): `Trim`, with its array of trimmed-read paths, the
  log path, and the existence guard.
- `Bedops` (`bedops.dfy`): the BED6 and the two BED12 conversions.
- `Rsem` (`rsem.dfy`): RSEM's reference-preparation and expression commands,
  and the two prefixes they record.
- Library modules:
  - `Wrappers`: `Option` and `Result`.
  - `Strings`: the .NET string operations used: `Split`, `Join`, `IndexOf`,
    `int.TryParse`, `ToString`.
  - `Paths`: `System.IO.Path` on '/'-separated paths.
  - `Dictionaries`: `ToDictionary` with its duplicate-key exception.
  - `Scripts`: a file system as a map from path to size, and a generated
    script as data.

C# conventions are modelled as follows:

- A null string is an `Option<string>`, and a thrown exception is a `Failure`.
- A script that the source writes and runs is returned as data: its name,
  its directory and its lines.
- Text files are a map from path to lines.

Calls into code outside these files are parameters, grouped per module in
`RsemTools`, `SkewerTools`, `BedopsTools` and `CmdTools`, or passed as
functions.

## Model

| member | source | states |
|---|---|---|
| SnpEffAnnotation.Parse | Proteogenomics/SnpEffAnnotation.cs:78-104 | The constructor as written succeeds exactly when the record has at least fifteen '|'-separated fields. With fewer, the source indexes past the end of the array. |
| SnpEffAnnotation.ParseJoined | Proteogenomics/SnpEffAnnotation.cs:80-103 | Round trip: parsing the '|'-join of separator-free fields gives back fields 0, 2-7 and 9 verbatim. It gives back the '&'-lists of fields 1 and 14 piece by piece. HGVS.p stays unset, and `frameshiftVariant` holds iff the tag is among the effects. |
| SnpEffAnnotation.ParseIgnoresExtraFields | Proteogenomics/SnpEffAnnotation.cs:80-99 | Fields after the fifteenth never change the record. |
| SnpEffAnnotation.EmptyTagList | Proteogenomics/SnpEffAnnotation.cs:82 | An empty effect list still yields exactly one, empty, effect. |
| SnpEffAnnotation.HalvesIndependent | Proteogenomics/SnpEffAnnotation.cs:89-90 | Each half of an "x/y" field is its own number, or 0 when it does not parse, whatever the other half holds. |
| SnpEffAnnotation.MissingSecondHalf | Proteogenomics/SnpEffAnnotation.cs:89-90 | A field without '/' gives its number as the first half and 0 as the second. |
| SnpEffAnnotation.PairRoundTrip | Proteogenomics/SnpEffAnnotation.cs:89-97 | Round trip: an "x/y" field printed from two numbers reads back as those two numbers. |
| SnpEffAnnotation.PairNotNumber | Proteogenomics/SnpEffAnnotation.cs:98 | A printed "x/y" pair never parses as a single number. |
| SnpEffAnnotation.DistanceWithSlashIsZero | Proteogenomics/SnpEffAnnotation.cs:98 | A distance field holding an "x/y" pair leaves the distance 0. |
| SnpEffAnnotation.FrameshiftIffTag | Proteogenomics/SnpEffAnnotation.cs:102 | `frameshiftVariant` holds exactly when some effect is "frameshift_variant". |
| SnpEffAnnotation.SynonymousAsWritten | Proteogenomics/SnpEffAnnotation.cs:101 | As written, `synonymous` holds exactly when some effect is in the non-synonymous list, so a missense effect makes it true. |
| SnpEffAnnotation.TagLists | Proteogenomics/SnpEffAnnotation.cs:99-103 | For '&'-joined effect and warning lists, the parser gives both lists back. `synonymous` holds iff some effect is non-synonymous, and `badTranscript` holds iff some warning is a bad-transcript warning. |
| SnpEffAnnotation.ShiftedPositions | Proteogenomics/SnpEffAnnotation.cs:92-98 | On a record laid out as the format defines it, the code as written reads HGVS.p as the cDNA pair, so cDNA is 0/0. It reads the cDNA pair as the CDS pair and the CDS pair as the protein pair. The protein pair lands in the distance, which becomes 0. |
| SnpEffAnnotation.ParseStandard | Proteogenomics/SnpEffAnnotation.cs:78-104 | The format's reading succeeds exactly with at least sixteen fields. It reads HGVS.p from field 10, the pairs from 11 to 13, the distance from 14 and the warnings from 15, and `synonymous` means that no effect is non-synonymous. |
| SnpEffAnnotation.StandardPositions | Proteogenomics/SnpEffAnnotation.cs:91-99 | The format's reading of the same record gets HGVS.p and all three "x/y" pairs right. |
| SnpEffAnnotation.StandardDistanceAndWarnings | Proteogenomics/SnpEffAnnotation.cs:98-103 | The format's reading gives back a printed distance from field 14 and the '&'-joined warnings from field 15 piece by piece. The transcript is bad exactly when some warning is a bad-transcript warning. |
| SnpEffAnnotation.StandardSynonymousMeansNoChange | Proteogenomics/SnpEffAnnotation.cs:141-156 | In the format's reading, `synonymous` holds exactly when no effect is in the non-synonymous list, so a record with a missense effect is not synonymous. |
| SnpEffAnnotation.MissenseRecordExample | Proteogenomics/SnpEffAnnotation.cs:78-104 | A missense record parses to rank 3/8, cDNA 0/0, CDS 100/800, protein 90/700 and distance 0. Its effects are ["missense_variant"], it is flagged synonymous, and its transcript is not bad. |
| SnpEffAnnotation.BadTranscriptExample | Proteogenomics/SnpEffAnnotation.cs:103 | A record whose warnings field is "WARNING_TRANSCRIPT_NO_STOP_CODON" parses and marks its transcript bad. |
| SnpEffAnnotation.NoStopCodonIsBad | Proteogenomics/SnpEffAnnotation.cs:198-204 | The missing-stop-codon warning is one of the bad-transcript warnings. |
| EnsemblDownloads.ResolveReferencePaths | ToolWrapperLayer/EnsemblDownloadsWrapper.cs:127-149 | The four reference paths for a reference name, with the GTF for GFF3 under GRCh37 and "" for an unrecognised name. `ResolvedReferenceFiles` states them. |
| EnsemblDownloads.DownloadScript | ToolWrapperLayer/EnsemblDownloadsWrapper.cs:154-161 | The download script for a recognised assembly. `DownloadScriptFetches` states its lines. |
| EnsemblDownloads.RecognizeReferenceCases | ToolWrapperLayer/EnsemblDownloadsWrapper.cs:127-128 | "GRCh37" and "GRCh38" are recognised in any letter case, and nothing else is. |
| EnsemblDownloads.ReferenceFileNamesPlain | ToolWrapperLayer/EnsemblDownloadsWrapper.cs:22-99 | Every reference file name is nonempty and free of '/'. |
| EnsemblDownloads.ResolvedReferenceFiles | ToolWrapperLayer/EnsemblDownloadsWrapper.cs:130-149 | A recognised reference puts each file under its fixed name in the target directory, and for GRCh37 the GFF3 path is the GTF path. An unrecognised reference gives four "" paths. |
| EnsemblDownloads.DownloadScriptFetches | ToolWrapperLayer/EnsemblDownloadsWrapper.cs:154-161 | The download script changes to the target directory and fetches each file from its assembly's URL. For GRCh37 the GFF3 line is the GTF line. |
| EnsemblDownloads.EnsemblDownloadsWrapper.constructor | ToolWrapperLayer/EnsemblDownloadsWrapper.cs:103-111 | Every property starts out null. |
| EnsemblDownloads.EnsemblDownloadsWrapper.DownloadReferences | ToolWrapperLayer/EnsemblDownloadsWrapper.cs:125-164 | Records the four resolved paths. It returns no script exactly when the reference is unrecognised or on a dry run, and otherwise returns the download script. |
| EnsemblDownloads.LoadMappings | ToolWrapperLayer/EnsemblDownloadsWrapper.cs:176-181 | A chromosome table read and turned into a dictionary from column 0 to column 1, failing on a missing file or a repeated key. `LoadedMappings` states it. |
| EnsemblDownloads.ChromosomeMappings | ToolWrapperLayer/EnsemblDownloadsWrapper.cs:172-202 | `UCSC2EnsemblChromosomeMappings` and `Ensembl2UCSCChromosomeMappings`: the table for the reference and direction, loaded. `MappingTableChoice` and `LoadedMappings` state its properties. |
| EnsemblDownloads.LoadedMappings | ToolWrapperLayer/EnsemblDownloadsWrapper.cs:176-181 | Loading fails exactly when the table is missing or a first column repeats. A loaded table maps exactly the first columns of rows with two or more columns, each to its second column. |
| EnsemblDownloads.MappingPairsDistinct | ToolWrapperLayer/EnsemblDownloadsWrapper.cs:181 | The table's pairs have distinct keys exactly when no chromosome repeats in its first column. |
| EnsemblDownloads.MappingTableChoice | ToolWrapperLayer/EnsemblDownloadsWrapper.cs:195-197 | Every reference other than GRCh37, recognised or not, reads the GRCh38 table. |
| EnsemblDownloads.LoadedValuesTabFree | ToolWrapperLayer/EnsemblDownloadsWrapper.cs:198-200 | A loaded table's values contain no tab. |
| EnsemblDownloads.TranslateFirstColumns | ToolWrapperLayer/EnsemblDownloadsWrapper.cs:219-230 | The `while (true)` loop writes exactly `TranslatedLines` of its input. It stops at the end or at the first empty line, skips '#' lines, and writes each row the rule keeps. |
| EnsemblDownloads.TranslatedLines | ToolWrapperLayer/EnsemblDownloadsWrapper.cs:219-230 | What the converter loop writes: up to the first empty line, '#' lines skipped, each row the rule keeps written as its translated columns. The `TranslatedLines…` lemmas state its properties, and `TranslateFirstColumns` is the loop proved equal to it. |
| EnsemblDownloads.TranslatedLinesAppend | ToolWrapperLayer/EnsemblDownloadsWrapper.cs:219-230 | The rows before the first empty line are translated one by one, in order. |
| EnsemblDownloads.TranslatedLinesSingle | ToolWrapperLayer/EnsemblDownloadsWrapper.cs:221-229 | A nonempty line is translated on its own. |
| EnsemblDownloads.TranslatedLinesStop | ToolWrapperLayer/EnsemblDownloadsWrapper.cs:222 | Nothing after the first empty line is read. |
| EnsemblDownloads.TranslatedLinesLength | ToolWrapperLayer/EnsemblDownloadsWrapper.cs:219-230 | At most one line is written per line read. |
| EnsemblDownloads.Ensembl2UcscRow | ToolWrapperLayer/EnsemblDownloadsWrapper.cs:224-229 | A row is kept exactly when its first column has a nonempty UCSC name, or is a UCSC name with a nonempty Ensembl name. A translated row has the UCSC name and then its other columns, and a kept UCSC row is unchanged. |
| EnsemblDownloads.Ucsc2EnsemblRow | ToolWrapperLayer/EnsemblDownloadsWrapper.cs:255-260 | A row is kept exactly when its first column is a known UCSC or Ensembl name. A UCSC name is replaced by its Ensembl name, even an empty one, and a kept Ensembl row is unchanged. |
| EnsemblDownloads.ConvertFirstColumnEnsembl2UCSC | ToolWrapperLayer/EnsemblDownloadsWrapper.cs:211-233 | Fails exactly when a chromosome table is missing or repeats a chromosome, or when the input is missing. Otherwise it writes the translated rows to "<dir>/<name>.ucsc<ext>" and changes no other file. |
| EnsemblDownloads.ConvertFirstColumnUCSC2Ensembl | ToolWrapperLayer/EnsemblDownloadsWrapper.cs:242-264 | The mirror image with the UCSC-to-Ensembl rule, writing to the same ".ucsc" output path. |
| EnsemblDownloads.ConversionKeepsInput | ToolWrapperLayer/EnsemblDownloadsWrapper.cs:215 | For an ordinary input path, the output is a different file in the same directory, so the input file is unchanged. |
| EnsemblDownloads.GrepQueryAlternatives | ToolWrapperLayer/EnsemblDownloadsWrapper.cs:288 | The grep pattern is the quoted `\|`-alternation of every contig name and of "#", each anchored with "^". |
| EnsemblDownloads.ContigNames | ToolWrapperLayer/EnsemblDownloadsWrapper.cs:288 | One name per chromosome, in genome order: its friendly name. |
| EnsemblDownloads.FilterGeneModel | ToolWrapperLayer/EnsemblDownloadsWrapper.cs:286-294 | The filtered gene-model path and its grep script. `FilterGeneModelOutput` and `GrepQueryAlternatives` state their properties. |
| EnsemblDownloads.FilterGeneModelOutput | ToolWrapperLayer/EnsemblDownloadsWrapper.cs:286-294 | The filtered model is a different file beside the gene model, named "<name>.filtered<ext>". |
| EnsemblDownloads.TranscriptFromNone | ToolWrapperLayer/EnsemblDownloadsWrapper.cs:275 | The transcript accession is "" exactly when no position holds "transcript:" followed by an accession character. |
| EnsemblDownloads.TranscriptFromFirst | ToolWrapperLayer/EnsemblDownloadsWrapper.cs:275 | With the first match at j, the accession is the greedy `[A-Za-z0-9_.]+` run after "transcript:" there. |
| EnsemblDownloads.AccessionRun | ToolWrapperLayer/EnsemblDownloadsWrapper.cs:275 | The greedy `[A-Za-z0-9_.]+` run: a prefix of accession characters, stopped by the first other character. |
| EnsemblDownloads.TranscriptAccessionOf | ToolWrapperLayer/EnsemblDownloadsWrapper.cs:279 | A full name starting "transcript:<acc>", followed by a non-accession character or nothing, yields acc. |
| EnsemblDownloads.AccessionSequencePairs | ToolWrapperLayer/EnsemblDownloadsWrapper.cs:278-280 | The accession pairs, then the transcript-accession pairs, each with its protein's sequence, in the order the dictionary adds them. |
| EnsemblDownloads.UntranscribedProteinsThrow | ToolWrapperLayer/EnsemblDownloadsWrapper.cs:279-280 | Two proteins without a transcript accession both add the key "", so building the dictionary throws. |
| EnsemblDownloads.AccessionTable | ToolWrapperLayer/EnsemblDownloadsWrapper.cs:278-280 | A built dictionary maps every accession and every transcript accession to its protein's sequence. |
| EnsemblDownloads.PairsDistinctAccessions | ToolWrapperLayer/EnsemblDownloadsWrapper.cs:280 | A built accession dictionary implies that the accessions alone are distinct. |
| EnsemblDownloads.BadAccessions | ToolWrapperLayer/EnsemblDownloadsWrapper.cs:281 | The accessions and transcript accessions of the proteins whose sequence holds 'X' or '*'. `BadAccessionsMembers` states it. |
| EnsemblDownloads.BadAccessionsMembers | ToolWrapperLayer/EnsemblDownloadsWrapper.cs:281 | A string is a bad accession exactly when a protein whose sequence holds 'X' or '*' carries it as accession or transcript accession. |
| EnsemblDownloads.SelenoPairsMembers | ToolWrapperLayer/EnsemblDownloadsWrapper.cs:283 | The selenoprotein pairs are exactly those of the proteins that are not bad and whose sequence holds 'U'. |
| EnsemblDownloads.SelenoDictionary | ToolWrapperLayer/EnsemblDownloadsWrapper.cs:283 | With distinct accessions, the selenoprotein dictionary is built. It maps each selenoprotein's accession to its sequence and holds nothing else. |
| EnsemblDownloads.SelenoDictionarySucceeds | ToolWrapperLayer/EnsemblDownloadsWrapper.cs:278-283 | Whenever the accession dictionary is built, the selenoprotein dictionary is built too. |
| EnsemblDownloads.EnsemblDownloadsWrapper.GetImportantProteinAccessions | ToolWrapperLayer/EnsemblDownloadsWrapper.cs:273-284 | Throws exactly when the accession dictionary has a repeated key, and then changes nothing. Otherwise it sets the accession table, the bad set and the selenoprotein table to their definitions. |
| EnsemblDownloads.UncompressedPathParts | ToolWrapperLayer/EnsemblDownloadsWrapper.cs:304-307 | The decompressed FASTA is the compressed path without its last extension, in the same directory. |
| EnsemblDownloads.KaryotypicPathBeside | ToolWrapperLayer/EnsemblDownloadsWrapper.cs:314 | The karyotypic copy lies beside its FASTA as "<name>.karyotypic.fa" and is never the FASTA itself. |
| EnsemblDownloads.EnsemblDownloadsWrapper.PrepareEnsemblGenomeFasta | ToolWrapperLayer/EnsemblDownloadsWrapper.cs:302-325 | Decompresses a compressed FASTA, then reads the genome. A karyotypic genome keeps its path. Otherwise the genome is reordered, and it is written to ".karyotypic.fa" only when that file is absent. |
| SpritzCmd.SeparateFastqs | CMD/Spritz.cs:238-254 | Null without a first list. Fails exactly when both lists are given with different comma counts. Otherwise gives one entry per first-list path, each of one or two paths. |
| SpritzCmd.SeparateFastqsSingle | CMD/Spritz.cs:248-250 | Without a second list, the entries are the first list's paths in order, and joining them gives the list back. |
| SpritzCmd.SeparateFastqsPaired | CMD/Spritz.cs:251 | Entry i pairs the i-th first path with the second-list path at that path's first `IndexOf` position. With distinct first paths, that is the i-th second path. |
| SpritzCmd.SeparateFastqsRepeatedPath | CMD/Spritz.cs:251 | "a,a" paired with "b,c" gives [a,b] twice and never uses c. |
| SpritzCmd.SeparatedFastqs | CMD/Spritz.cs:51-54 | An SRA accession starting with "SR" gives the downloaded reads. Otherwise the lists are paired by `SeparateFastqs`. |
| SpritzCmd.FinishedSettings | CMD/Spritz.cs:221-230 | The options after `FinishSetup`: the four defaults filled in. `FinishSetupDefaults`, `FinishSetupIdempotent` and `FinishSetupUnknownReference` state its properties. |
| SpritzCmd.FinishSetupDefaults | CMD/Spritz.cs:226-229 | Each of the four options keeps a set value and takes its resolved default when null. The STAR index defaults from the finished genome and gene model, and nothing else changes. |
| SpritzCmd.FinishSetupIdempotent | CMD/Spritz.cs:226-229 | Filling in the defaults twice is filling them in once. |
| SpritzCmd.FinishSetupUnknownReference | CMD/Spritz.cs:225-229 | For an unrecognised or null reference, nothing is thrown, whatever the Spritz directory, and the reference defaults are "". |
| SpritzCmd.DownloadReferences | CMD/Spritz.cs:224-225 | A new wrapper, never on a dry run, gives the resolved paths and the download script. |
| SpritzCmd.SetReferenceOptions | CMD/Spritz.cs:226-229 | The four assignments, and nothing else in the options changes. |
| SpritzCmd.FinishSetup | CMD/Spritz.cs:221-230 | Throws, leaving the options unchanged, exactly for a null Spritz directory with a recognised reference. Otherwise the options become `FinishedSettings` and the download script is returned. |
| SpritzCmd.Dispatch | CMD/Spritz.cs:56-214 | Every refusal names the command. |
| SpritzCmd.DispatchRecognized | CMD/Spritz.cs:211-214 | A command is refused exactly when it matches none of the six. Four are compared ignoring case, and the transfer command and "strandedness" exactly. |
| SpritzCmd.DispatchLetterCase | CMD/Spritz.cs:56 | The protein-database command is recognised in any letter case, and "Strandedness" is refused. |
| SpritzCmd.ParseExperimentType | CMD/Spritz.cs:69-85 | A success is exactly one of the three enum names, and every refusal is the unrecognised-type error. |
| SpritzCmd.ExperimentTypeRoundTrip | CMD/Spritz.cs:70-81 | Round trip: each type's own name parses back to it. |
| SpritzCmd.ExperimentTypeExact | CMD/Spritz.cs:82-85 | A null type and "rnasequencing" are refused. |
| SpritzCmd.RunStrandedness | CMD/Spritz.cs:177-183 | The inferred protocol when inference is on. Otherwise Forward iff strand-specific and None iff not. |
| SpritzCmd.QuantificationRuns | CMD/Spritz.cs:175-196 | One run per fastq entry, in order, each with that entry's reads and STAR. |
| SpritzCmd.QuantificationRunsStrandedness | CMD/Spritz.cs:175-183 | Each run's strand protocol is decided from its own reads and the two switches. |
| SpritzCmd.QuantifyAll | CMD/Spritz.cs:175-196 | The `foreach` loop builds exactly `QuantificationRuns`. |
| SpritzCmd.Decide | CMD/Spritz.cs:51-214 | The outcome of `Main` after setup: the fastqs separated first, a null command refused, then the selected flow's checks, giving the `Plan` it starts. The `Decide…` lemmas, `ProteinDatabaseChecks` and `TransferChecks` state it branch by branch. |
| SpritzCmd.DecideFastqsFirst | CMD/Spritz.cs:244-246 | Mismatched fastq lists are refused before the command is read, whatever the command. |
| SpritzCmd.DecideSraReads | CMD/Spritz.cs:51-53 | Downloaded SRA reads are never refused as mismatched. |
| SpritzCmd.DecideUnrecognized | CMD/Spritz.cs:211-214 | With separable fastqs, `Main` fails naming the command exactly when dispatch refuses it. |
| SpritzCmd.ProteinDatabaseChecks | CMD/Spritz.cs:69-91 | The protein-database flow runs exactly for one of the three type names, with isoform analysis only for RNA sequencing. It then carries that type and the fastqs. |
| SpritzCmd.DecideRnaOnly | CMD/Spritz.cs:122-125 | The lncRNA, fusion and quantification flows refuse exactly a set experiment type other than "RNASequencing". Quantification also refuses null fastqs. |
| SpritzCmd.DecideQuantification | CMD/Spritz.cs:175-194 | Each quantification run uses STAR and the strand protocol of its own reads. |
| SpritzCmd.TransferChecks | CMD/Spritz.cs:160-166 | The transfer flow fails on a null UniProt XML and on a list of one path. Otherwise it takes the first two comma-separated paths. |
| SpritzCmd.SpritzMain | CMD/Spritz.cs:47-214 | Throws, changing nothing, exactly when `FinishSetup` does. Otherwise it returns the download script, the outcome `Decide` gives on the finished options, and the options as `Main` leaves them. |
| SpritzCmd.RunCommand | CMD/Spritz.cs:56-214 | The branches of `Main`, in code order, give `DecideCommand`'s outcome. A downloaded known-sites VCF is set only for the protein-database flow, when none was set. |
| SpritzCmd.ProteinDatabaseCommand | CMD/Spritz.cs:68-91 | The experiment-type parse and the isoform check give `DecideProteinDatabase`. |
| CmdOptions.Options.constructor | CMD/Spritz.cs:47 | The parsed options hold exactly the given values. |
| EverythingRunner.AddQuotesShape | GUI/EverythingRunnerEngine.cs:165-171 | The result starts and ends with '"'. It is the value itself exactly when the value already did, and otherwise the value wrapped in one pair of quotes. |
| EverythingRunner.AddQuotesIdempotent | GUI/EverythingRunnerEngine.cs:165-171 | Quoting twice is quoting once. |
| EverythingRunner.FlagIndexAt | GUI/EverythingRunnerEngine.cs:68-156 | The 23 blocks and their flags correspond one to one. |
| EverythingRunner.ParseFlagName | GUI/EverythingRunnerEngine.cs:68-156 | Every flag's text reads back as that flag, so no two flags share a text. |
| EverythingRunner.Given | GUI/EverythingRunnerEngine.cs:69 | An option counts as given exactly when it is neither null nor "". |
| EverythingRunner.BlockFor | GUI/EverythingRunnerEngine.cs:68-156 | Each flag's block is well formed and carries that flag. |
| EverythingRunner.AddValue | GUI/EverythingRunnerEngine.cs:69-72 | Appends the flag and its value, quoted for a path, only for a given value. |
| EverythingRunner.AddCount | GUI/EverythingRunnerEngine.cs:93-96 | Appends the flag and the count only for a count in 1..processor count. |
| EverythingRunner.AddGuarded | GUI/EverythingRunnerEngine.cs:125-128 | Appends the indel finder only when the UniProt XML is given. |
| EverythingRunner.AddSwitch | GUI/EverythingRunnerEngine.cs:129-132 | Appends the switch only when it is on. |
| EverythingRunner.Argv | GUI/EverythingRunnerEngine.cs:66-158 | The argument list as a function: the rendering of the 23 blocks after "-c" and the command. `ArgvSpelledOut`, `ArgvTokens`, `ArgvCarries` and `ArgvOrdered` state its properties. |
| EverythingRunner.Sent | GUI/EverythingRunnerEngine.cs:68-156 | The independent reference definition, flag by flag, of what the options send: the command; a path quoted, or a value as it is, when given; a count within 1..processor count; the indel finder when a UniProt XML is given; a switch when on. `ArgvCarries` proves the list carries exactly these. |
| EverythingRunner.GenerateArguments | GUI/EverythingRunnerEngine.cs:66-158 | The method building the list step by step returns exactly `Argv`. |
| EverythingRunner.ArgvSpelledOut | GUI/EverythingRunnerEngine.cs:68-156 | The list is "-c" with the command, then the 23 option blocks in the order of the code. |
| EverythingRunner.ArgvDirectories | GUI/EverythingRunnerEngine.cs:69-80 | Blocks 2 to 4: the Spritz directory, the analysis directory and the first read file, quoted. |
| EverythingRunner.ArgvReads | GUI/EverythingRunnerEngine.cs:81-92 | Blocks 5 to 7: the second read file, quoted, then the experiment type and the SRA accession unquoted. |
| EverythingRunner.ArgvGenome | GUI/EverythingRunnerEngine.cs:93-104 | Blocks 8 to 10: the thread count, the STAR index and the genome. |
| EverythingRunner.ArgvGeneModels | GUI/EverythingRunnerEngine.cs:105-116 | Blocks 11 to 13: the two gene models and the reference VCF. |
| EverythingRunner.ArgvProteins | GUI/EverythingRunnerEngine.cs:117-128 | Blocks 14 to 16: the reference unquoted, the UniProt XML, and the indel finder guarded by the XML. |
| EverythingRunner.ArgvSwitches | GUI/EverythingRunnerEngine.cs:129-140 | Blocks 17 to 19: the first three switches. |
| EverythingRunner.ArgvAnalyses | GUI/EverythingRunnerEngine.cs:141-156 | Blocks 20 to 23: the analysis switches and the variant-calling workers. |
| EverythingRunner.ArgvLeading | GUI/EverythingRunnerEngine.cs:68 | The list always starts with "-c" and the command, null as "". |
| EverythingRunner.ReadBlock | GUI/EverythingRunnerEngine.cs:69-156 | Every well-formed block reads back completely, as its token. |
| EverythingRunner.ArgvTokens | GUI/EverythingRunnerEngine.cs:66-158 | Round trip: the argument list reads back as the tokens of its blocks, in flag order. |
| EverythingRunner.ArgvCarries | GUI/EverythingRunnerEngine.cs:66-158 | The list reads completely. It carries a flag with value v exactly when v is what the options send for that flag. |
| EverythingRunner.ArgvOrdered | GUI/EverythingRunnerEngine.cs:66-158 | The flags come in the order of the code, none twice. |
| EverythingRunner.TaskRunsIndex | GUI/EverythingRunnerEngine.cs:31-53 | The runs of the first k tasks are k in number, and entry i is task i's run. |
| EverythingRunner.EverythingRunnerEngine.constructor | GUI/EverythingRunnerEngine.cs:15-19 | Holds the task list and the output folder, with `Arguments` and `StdErr` unset. |
| EverythingRunner.EverythingRunnerEngine.GenerateCommandsDry | GUI/EverythingRunnerEngine.cs:56-64 | One space-joined argument string per task, in task order. |
| EverythingRunner.EverythingRunnerEngine.RunTask | GUI/EverythingRunnerEngine.cs:33-52 | Task i's parameter file "<folder>/<i>_Parameters.toml", its options and its argument string. `Arguments` and `StdErr` become those of this task. |
| EverythingRunner.EverythingRunnerEngine.Run | GUI/EverythingRunnerEngine.cs:25-54 | One run per task, in order. `Arguments` and `StdErr` end up with the last task's, and stay unchanged without tasks. |
| Skewer.StripExtensionRemoves | ToolWrapperLayer/SkewerWrapper.cs:54 | Stripping a read path is `ChangeExtension(p, null)`, in the same directory. |
| Skewer.UncompressedReadPaths | ToolWrapperLayer/SkewerWrapper.cs:53-54 | One stripped-or-kept path per read. |
| Skewer.UncompressedReadPathsCases | ToolWrapperLayer/SkewerWrapper.cs:53-54 | When the first read ends in ".gz", every path is stripped, and otherwise none is. |
| Skewer.TrimmedPathsFrom | ToolWrapperLayer/SkewerWrapper.cs:55-59 | n entries, set exactly at positions 0 and 1. |
| Skewer.TrimmedPathAt | ToolWrapperLayer/SkewerWrapper.cs:55-59 | Entry i is position i's trimmed path, and null from position 2 on. |
| Skewer.TrimmedPaths | ToolWrapperLayer/SkewerWrapper.cs:49 | One entry per read. |
| Skewer.TrimmedSuffixValues | ToolWrapperLayer/SkewerWrapper.cs:57-58 | "-trimmed.fastq" for single reads, "-trimmed-pair1.fastq" and "-trimmed-pair2.fastq" for pairs. |
| Skewer.TrimmedName | ToolWrapperLayer/SkewerWrapper.cs:57-58 | A trimmed read lies beside the first read and is named after it, followed by its suffix. |
| Skewer.TrimLogName | ToolWrapperLayer/SkewerWrapper.cs:60 | The log lies beside the first read as "<name>-trimmed.log". |
| Skewer.ReadArgumentsWords | ToolWrapperLayer/SkewerWrapper.cs:74-75 | The command names the first read, the second exactly when there are two or more, and no other. |
| Skewer.SkewerCommand | ToolWrapperLayer/SkewerWrapper.cs:68-75 | The skewer command line: quality filter, output prefix beside the first read, threads, adapters, and the reads. `ReadArgumentsWords` states which reads it names. |
| Skewer.TrimScript | ToolWrapperLayer/SkewerWrapper.cs:50-76 | The script `Trim` runs, if any: the tools-directory change and the skewer command in "Skewered.bash". `TrimScriptGuard` and `AlreadyTrimmedIgnoresSize` state when it exists. |
| Skewer.TrimScriptGuard | ToolWrapperLayer/SkewerWrapper.cs:50-66 | No script without reads, on a dry run, or when the expected outputs exist. Otherwise the two-line "Skewered.bash" in the analysis directory. |
| Skewer.AlreadyTrimmedIgnoresSize | ToolWrapperLayer/SkewerWrapper.cs:62 | The guard reads existence only: empty outputs still skip trimming. |
| Skewer.FillTrimmedPaths | ToolWrapperLayer/SkewerWrapper.cs:49-59 | The `for` loop fills a fresh array of n entries with the paths at 0 and 1, and null after them. |
| Skewer.TrimmedPathsFilled | ToolWrapperLayer/SkewerWrapper.cs:55-59 | The array the loop fills is `TrimmedPaths`. |
| Skewer.Trim | ToolWrapperLayer/SkewerWrapper.cs:46-77 | A fresh array equal to `TrimmedPaths`, the log path, and the script the guard allows. |
| Bedops.GtfOrGff2Bed6 | ToolWrapperLayer/BEDOPSWrapper.cs:61-77 | The BED6 conversion itself: the ".bed" path beside the model, and the two-line script, which runs only when that file is missing or empty. `Bed6Guard`, `Bed6ToolChoice` and `Bed6PathBeside` state its properties. |
| Bedops.GeneModelGtf | ToolWrapperLayer/BEDOPSWrapper.cs:91-94 | The GTF the BED12 conversions read: a ".gff…" model converted first, any other used as given. `GeneModelGtfCases` states it. |
| Bedops.GffOrGtf2Bed12 | ToolWrapperLayer/BEDOPSWrapper.cs:88-106 | The BED12 conversion sorted by chromosome and start: the GTF, then genePred, BED12 and sorted BED12, always run. `Bed12Outputs` and `Bed12PlainSort` state its properties. |
| Bedops.Gtf2Bed12 | ToolWrapperLayer/BEDOPSWrapper.cs:117-134 | The same conversion sorted in the order of the genome's FASTA index. `Bed12Outputs` and `Bed12FaidxSort` state its properties. |
| Bedops.Bed6PathBeside | ToolWrapperLayer/BEDOPSWrapper.cs:64 | The BED6 file lies beside the gene model as "<name>.bed". |
| Bedops.Bed6Guard | ToolWrapperLayer/BEDOPSWrapper.cs:61-77 | The BED6 path is always returned. The two-line "Bed6Conversion.bash" runs exactly when that file is missing or empty. |
| Bedops.Bed6ToolChoice | ToolWrapperLayer/BEDOPSWrapper.cs:70-72 | A ".gtf" model goes through the awk fix into `gtf2bed`; any other is read by `cat` into `gff2bed`. |
| Bedops.GeneModelGtfCases | ToolWrapperLayer/BEDOPSWrapper.cs:90-94 | A ".gff…" model is replaced by its GTF form, and any other model is its own GTF. |
| Bedops.Bed12Outputs | ToolWrapperLayer/BEDOPSWrapper.cs:95-102 | Both BED12 conversions always run, return "<gtf>.sorted.bed12", and share their genePred and BED12 steps. |
| Bedops.Bed12PlainSort | ToolWrapperLayer/BEDOPSWrapper.cs:103 | `GffOrGtf2Bed12` sorts with `sort -k1,1 -k2,2n`. |
| Bedops.Bed12FaidxSort | ToolWrapperLayer/BEDOPSWrapper.cs:131 | `Gtf2Bed12` sorts by "<genome>.fai" with `bedtools sort -faidx`. |
| Bedops.SortedBed12Beside | ToolWrapperLayer/BEDOPSWrapper.cs:97 | The sorted BED12 file lies beside the GTF as "<name>.sorted.bed12". |
| Bedops.DistinctArtifacts | ToolWrapperLayer/BEDOPSWrapper.cs:95-97 | Paths derived from one file with different suffixes are different files. |
| Rsem.LowerString | ToolWrapperLayer/RSEMWrapper.cs:132 | ASCII `ToLowerInvariant`: the same length, with letters lowered. |
| Rsem.StrandednessOptionValues | ToolWrapperLayer/RSEMWrapper.cs:132 | "--strandedness none", "--strandedness forward" and "--strandedness reverse". |
| Rsem.GetAlignerOption | ToolWrapperLayer/RSEMWrapper.cs:180-190 | Bowtie1 is refused. STAR and Bowtie2 name their aligner and its directory. |
| Rsem.GeneModelOptionCases | ToolWrapperLayer/RSEMWrapper.cs:92-94 | A ".gff…" extension gives "--gff3", exactly ".gtf" gives "--gtf", and any other extension gives null. |
| Rsem.ReferencePrefixDirectoryName | ToolWrapperLayer/RSEMWrapper.cs:88-90 | The directory is the FASTA without extension, followed by the aligner family and the gene model's hash. |
| Rsem.ConvertedListSplits | ToolWrapperLayer/RSEMWrapper.cs:138 | The converted list splits back into the converted paths. |
| Rsem.InputOptionPaired | ToolWrapperLayer/RSEMWrapper.cs:138-142 | The input starts with "--paired-end " exactly for two fastq entries. |
| Rsem.CompressionOptionCases | ToolWrapperLayer/RSEMWrapper.cs:133-137 | With STAR, ".gz" gives the gunzip option and the bzip suffixes give the bunzip option. Any other input or aligner gives "". |
| Rsem.SamtoolsCommandsEmpty | ToolWrapperLayer/RSEMWrapper.cs:144-153 | The samtools step is empty, and the BAM option is "--no-bam-output", exactly without genome BAM output. |
| Rsem.FirstFastq | ToolWrapperLayer/RSEMWrapper.cs:145 | The first path of the first comma-separated fastq list. |
| Rsem.ExpressionOutputPrefixBeside | ToolWrapperLayer/RSEMWrapper.cs:145 | The output prefix lies beside the first fastq as "<name>_reference<hash>". |
| Rsem.ReferenceCommands | ToolWrapperLayer/RSEMWrapper.cs:97-109 | The reference preparation is three commands. |
| Rsem.ExpressionCommands | ToolWrapperLayer/RSEMWrapper.cs:156-172 | The expression step is three commands. |
| Rsem.ExpressionCommandsShape | ToolWrapperLayer/RSEMWrapper.cs:156-172 | The step starts with "cd ". Its samtools step is empty exactly without genome BAM output. |
| Rsem.ExpressionCommandsIgnoreStrandedness | ToolWrapperLayer/RSEMWrapper.cs:132 | As written, the commands are the same whatever strandedness is asked for. |
| Rsem.StrandedExpressionCommands | ToolWrapperLayer/RSEMWrapper.cs:156-172 | The corrected step, with the strandedness option after the thread option, is three commands. |
| Rsem.StrandedCallCarriesStrandedness | ToolWrapperLayer/RSEMWrapper.cs:159-164 | In the corrected step, the call carries the requested strandedness right after the thread option. |
| Rsem.StrandedCallsDiffer | ToolWrapperLayer/RSEMWrapper.cs:132 | In the corrected step, different strandedness requests give different calls. |
| Rsem.StrandedCommandsElsewhereUnchanged | ToolWrapperLayer/RSEMWrapper.cs:158 | The correction changes only the call: the first and last commands are as written. |
| Rsem.CalculateExpression | ToolWrapperLayer/RSEMWrapper.cs:118-174 | The outcome of `CalculateExpressionCommands`: the three refusals in code order, otherwise the as-written commands. `CalculateExpressionChecks` states it. |
| Rsem.CalculateExpressionChecks | ToolWrapperLayer/RSEMWrapper.cs:121-130 | No fastqs, more than two, and Bowtie1 are refused in that order, each with its own error. Anything else succeeds. |
| Rsem.RSEMWrapper.constructor | ToolWrapperLayer/RSEMWrapper.cs:22-23 | Both prefixes start out null. |
| Rsem.RSEMWrapper.PrepareReferenceCommands | ToolWrapperLayer/RSEMWrapper.cs:83-111 | Refuses exactly Bowtie1, recording nothing. Otherwise it records the index prefix inside the reference directory and returns the reference commands. |
| Rsem.RSEMWrapper.CalculateExpressionCommands | ToolWrapperLayer/RSEMWrapper.cs:118-174 | Returns what the checks decide. It records the output prefix only when they pass. |
| Strings.Split | Proteogenomics/SnpEffAnnotation.cs:80 | One more piece than separators, none holding the separator. |
| Strings.JoinSplit | CMD/Spritz.cs:248 | Round trip: joining the pieces of a split gives back the string. |
| Strings.SplitJoin | Proteogenomics/SnpEffAnnotation.cs:80 | Round trip: splitting a join of separator-free pieces gives back the pieces. |
| Strings.SplitFirstPiece | ToolWrapperLayer/RSEMWrapper.cs:145 | The first piece of a split is the text before the first separator. |
| Strings.IndexOf | CMD/Spritz.cs:251 | The first position holding the value, or -1 exactly when it is absent. |
| Strings.ParseInt | Proteogenomics/SnpEffAnnotation.cs:89 | A parsed number comes from an optional sign followed by decimal digits. |
| Strings.ParseIntToString | Proteogenomics/SnpEffAnnotation.cs:89-98 | Round trip: parsing undoes printing. |
| Strings.ParseIntRejects | Proteogenomics/SnpEffAnnotation.cs:98 | A non-digit after the first place makes parsing fail. |
| Strings.NatToStringDigits | ToolWrapperLayer/RSEMWrapper.cs:87 | A printed number is nonempty digits whose value is the number. |
| Paths.GetFileName | ToolWrapperLayer/EnsemblDownloadsWrapper.cs:157 | The file name is free of '/' and ends the path. |
| Paths.GetExtension | ToolWrapperLayer/BEDOPSWrapper.cs:63 | "" or a '.' followed by a nonempty, dot-free, '/'-free rest that ends the path. |
| Paths.GetFileNameWithoutExtension | ToolWrapperLayer/BEDOPSWrapper.cs:64 | The stem is free of '/'. |
| Paths.FileNameParts | ToolWrapperLayer/BEDOPSWrapper.cs:63-64 | Stem followed by extension is the file name. |
| Paths.RemoveExtensionParts | ToolWrapperLayer/EnsemblDownloadsWrapper.cs:307 | `ChangeExtension(p, null)` followed by the extension is p, in p's directory. |
| Paths.CombineSibling | ToolWrapperLayer/BEDOPSWrapper.cs:64 | Combining p's directory with a relative name puts the name in p's directory. |
| Paths.InsertBeforeExtensionShape | ToolWrapperLayer/EnsemblDownloadsWrapper.cs:289 | Inserting an infix before the extension adds exactly the infix, so a nonempty infix never names p. |
| Paths.InsertBeforeExtensionSibling | ToolWrapperLayer/EnsemblDownloadsWrapper.cs:215 | Inserting a '/'-free infix stays in p's directory. |
| Paths.ReplaceExtensionShape | ToolWrapperLayer/BEDOPSWrapper.cs:64 | Replacing the extension keeps the directory. The new name is the stem and the suffix. |
| Paths.CombineFileName | ToolWrapperLayer/EnsemblDownloadsWrapper.cs:131 | A plain name combined onto a directory is the result's file name. |
| Dictionaries.ToDictionary | ToolWrapperLayer/EnsemblDownloadsWrapper.cs:181 | Keys come from the pairs, and a failure names a key of the pairs. |
| Dictionaries.ToDictionarySucceeds | ToolWrapperLayer/EnsemblDownloadsWrapper.cs:280 | The dictionary is built exactly when the keys are distinct. |
| Dictionaries.ToDictionaryContents | ToolWrapperLayer/EnsemblDownloadsWrapper.cs:200 | A built dictionary holds exactly the pairs' keys, each mapped to its pair's value. |

## Left out

- Strings.ParseInt: `int.TryParse` is reduced to an optional sign followed by decimal digits. Culture, surrounding white space and 32-bit overflow are not modelled.
- Strings.EqualsIgnoreCase: `CurrentCultureIgnoreCase` and `InvariantCultureIgnoreCase` are reduced to ASCII case folding. Non-ASCII letters compare only when identical.
- Rsem.LowerString: `ToLowerInvariant` is reduced to ASCII. It is only applied to the enum names "None", "Forward" and "Reverse".
- Paths: paths are '/'-separated, but .NET on Windows also splits on '\\'.
- Paths.GetDirectoryName: gives "/" for the root "/" itself and "" for the empty path, where .NET gives null for both. It keeps doubled separators where .NET collapses them.
- Numbers are unbounded. The 32-bit `int` of thread counts, hash codes and parsed positions is not modelled.
- Foreign code is taken as parameters, because its source is not part of this model:
  - `string.GetHashCode`;
  - `Environment.ProcessorCount`;
  - the SRA download (`SRAToolkitWrapper.GetFastqsFromSras`);
  - the known-variant-site download (`GATKWrapper.DownloadEnsemblKnownVariantSites`);
  - `AlignmentFlow.InferStrandedness`;
  - `WrapperUtility.ConvertWindowsPath` and `ChangeToToolsDirectoryCommand`;
  - the STAR, TopHat and samtools helpers;
  - `CufflinksWrapper.GffToGtf`;
  - `STARWrapper.GetGenomeStarIndexDirectoryPath`.
- The flow command names (`SampleSpecificProteinDBFlow.Command` and the others) are a `FlowCommands` parameter. The flows' own code is not part of this model, so `Main` returns a `Plan` naming the flow it would start.
- The `PerformanceCounter` reading at RSEMWrapper.cs:143 is dropped, because its value is never used.
- `Main`'s bash-setup check, the `ManageTools` install branch and the command-line parse failure are left out (Spritz.cs:17-45). The model starts from parsed options, and `CommandLine.Parser` is not part of it. The `Options` class is not part of this model either: `CmdOptions.Options` holds the properties `Main` reads and writes.
- Console output is left out: the UniProt hint, "done", the printed BAM properties, and the usage text.
- `Run` does not write the Toml file and does not start the process. Each run is returned as a record of the parameter-file name, the options and the argument string. The process's standard error is a `runProcess` parameter.
- `GenerateAndRunScript` is left out: each script is returned as data (its name, directory and lines), and `WaitForExit` is not modelled.
- The file system is a map from path to size, and text files are a map from path to lines. `StreamReader`/`StreamWriter` buffering and I/O errors are not modelled.
- `Genome` (reading, `IsKaryotypic`, `KaryotypicOrder`, `WriteFasta`) and `ProteinDbLoader` are parameters or inputs. The `transcript:` regex is a hand-written greedy matcher.
- There is no impact-tier classification. The severity lists at SnpEffAnnotation.cs:110-196 are unused by the code, and `PutativeImpact` is the raw field, so there is no impact-tier function.
- The chromosome tables are external files, so no round trip between them is claimed.
- EnsemblDownloads.ConvertFirstColumnUCSC2Ensembl: only the as-written output name is modelled. It carries ".ucsc" although the file holds Ensembl names (EnsemblDownloadsWrapper.cs:246). No corrected name is claimed.
- Rsem.RSEMWrapper.CalculateExpressionCommands: keeps the code as written, without the strandedness option. The corrected commands are `Rsem.StrandedExpressionCommands` (see Findings).
- The install and remove scripts, HISAT2Wrapper.cs, MeltingWrapper.cs, Deletion.cs and the flow parameter bag are outside the modelled core.
- Concurrency of the variant-calling workers is not in the modelled code.

## Findings

| source | as written | input that shows it | evidently intended | confidence | as-written member | corrected member |
|---|---|---|---|---|---|---|
| Proteogenomics/SnpEffAnnotation.cs:92-99 | The cDNA, CDS and protein pairs are read from fields 10-12, the distance from field 13 and the warnings from field 14. HGVS.p (field 10 of the format) is never read, so each later field is read one place early. | The missense record "…\|c.100A>T\|p.K34N\|100/800\|90/700\|30/233\|\|" gives cDNA 0/0, CDS 100/800 and protein 90/700. | HGVS.p from field 10, the pairs from fields 11-13, the distance from 14 and the warnings from 15: cDNA 100/800, CDS 90/700, protein 30/233. `SnpEffAnnotation.StandardDistanceAndWarnings` proves the distance and warnings readings. | high; not executed | SnpEffAnnotation.ShiftedPositions | SnpEffAnnotation.StandardPositions |
| Proteogenomics/SnpEffAnnotation.cs:101 | `Synonymous` is set when some effect is in the non-synonymous list. | A record whose only effect is "missense_variant" is flagged synonymous. | Synonymous exactly when no effect is non-synonymous, so a missense record is not synonymous. | high; not executed | SnpEffAnnotation.SynonymousAsWritten | SnpEffAnnotation.StandardSynonymousMeansNoChange |
| ToolWrapperLayer/RSEMWrapper.cs:132 | `strandOption` is computed but never placed in the `rsem-calculate-expression` call (lines 156-172). | Two calls differing only in strandedness, None and Forward, give identical commands, so a stranded library is quantified as unstranded. | "--strandedness <value>" in the call, so different requests give different calls. | medium; not executed | Rsem.ExpressionCommandsIgnoreStrandedness | Rsem.StrandedCallsDiffer |
