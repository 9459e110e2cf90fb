/**
 * Read trimming with skewer: the trimmed-read and log paths derived from the
 * input reads, the already-trimmed guard, and the trimming command.
 */
module Skewer {
  import opened Wrappers
  import opened Strings
  import opened Paths
  import opened Scripts

  /** The helpers of other wrappers the trimming script calls, which are not part of this model. */
  datatype SkewerTools = SkewerTools(
    changeToToolsDirectoryCommand: string -> string,
    convertWindowsPath: string -> string)

  /** A path with its last extension dropped, as `Combine(GetDirectoryName(x), GetFileNameWithoutExtension(x))`. */
  function StripExtension(p: string): string
  {
    Combine(GetDirectoryName(p), GetFileNameWithoutExtension(p))
  }

  /** For an ordinary path, stripping is `ChangeExtension(p, null)`: the directory prefix and the stem. */
  lemma StripExtensionRemoves(p: string)
    requires SimpleDir(p) && GetFileNameWithoutExtension(p) != ""
    ensures StripExtension(p) == RemoveExtension(p)
    ensures GetDirectoryName(StripExtension(p)) == GetDirectoryName(p)
  {
    SiblingStem(p);
    RemoveExtensionStem(p);
    SiblingDirectory(p, GetFileNameWithoutExtension(p));
  }

  /** The reads the names are derived from: every path stripped once when the first one ends in ".gz". */
  function UncompressedReadPaths(readPaths: seq<string>): (u: seq<string>)
    requires |readPaths| > 0
    ensures |u| == |readPaths|
  {
    if GetExtension(readPaths[0]) == ".gz"
    then seq(|readPaths|, i requires 0 <= i < |readPaths| => StripExtension(readPaths[i]))
    else readPaths
  }

  /** Compressed input has each path stripped of its extension; other input is used as given. */
  lemma UncompressedReadPathsCases(readPaths: seq<string>, i: int)
    requires 0 <= i < |readPaths|
    ensures GetExtension(readPaths[0]) == ".gz" ==> UncompressedReadPaths(readPaths)[i] == StripExtension(readPaths[i])
    ensures GetExtension(readPaths[0]) != ".gz" ==> UncompressedReadPaths(readPaths)[i] == readPaths[i]
  {
  }

  /** What follows the first read's name in the trimmed path at position `i`. */
  function TrimmedSuffix(paired: bool, i: int): string
  {
    if i == 0 then "-trimmed" + (if paired then "-pair1" else "") + ".fastq" else "-trimmed-pair2.fastq"
  }

  /**
   * The trimmed path at position `i`, `Combine(GetDirectoryName(first),
   * GetFileNameWithoutExtension(first) + suffix)` for the first two positions and
   * null past them.
   */
  function TrimmedPath(first: string, paired: bool, i: int): Option<string>
  {
    if i == 0 || i == 1 then Some(ReplaceExtension(first, TrimmedSuffix(paired, i))) else None
  }

  /** The trimmed paths of `n` positions derived from the first read. */
  function TrimmedPathsFrom(first: string, paired: bool, n: nat): (t: seq<Option<string>>)
    ensures |t| == n
    ensures forall i :: 0 <= i < n ==> (t[i].Some? <==> i < 2)
  {
    seq(n, i requires 0 <= i < n => TrimmedPath(first, paired, i))
  }

  /** Position i of the trimmed paths is that position's trimmed path, set only at 0 and 1. */
  lemma TrimmedPathAt(first: string, paired: bool, n: nat, i: nat)
    requires i < n
    ensures TrimmedPathsFrom(first, paired, n)[i] == TrimmedPath(first, paired, i)
    ensures i >= 2 ==> TrimmedPathsFrom(first, paired, n)[i] == None
  {
  }

  /** The array `Trim` fills in: one entry per read, set only at the first two positions. */
  function TrimmedPaths(readPaths: seq<string>): (t: seq<Option<string>>)
    ensures |t| == |readPaths|
  {
    if |readPaths| == 0 then []
    else TrimmedPathsFrom(UncompressedReadPaths(readPaths)[0], |readPaths| > 1, |readPaths|)
  }

  /** The log path: "<name>-trimmed.log" beside the first read, or "" without reads. */
  function TrimLog(readPaths: seq<string>): string
  {
    if |readPaths| == 0 then ""
    else
      ReplaceExtension(UncompressedReadPaths(readPaths)[0], "-trimmed.log")
  }

  /** The suffixes: "-trimmed.fastq" single-end, "-trimmed-pair1.fastq" and "-trimmed-pair2.fastq" paired. */
  lemma TrimmedSuffixValues()
    ensures TrimmedSuffix(false, 0) == "-trimmed.fastq"
    ensures TrimmedSuffix(true, 0) == "-trimmed-pair1.fastq"
    ensures TrimmedSuffix(true, 1) == "-trimmed-pair2.fastq"
  {
  }

  /**
   * A trimmed read derived from a first read in an ordinary directory lies in
   * that directory and is named after it, followed by its suffix.
   */
  lemma TrimmedName(first: string, paired: bool, i: int)
    requires SimpleDir(first) && (i == 0 || i == 1)
    ensures GetDirectoryName(TrimmedPath(first, paired, i).value) == GetDirectoryName(first)
    ensures GetFileName(TrimmedPath(first, paired, i).value)
         == GetFileNameWithoutExtension(first) + TrimmedSuffix(paired, i)
  {
    var suffix := TrimmedSuffix(paired, i);
    assert '/' !in suffix && suffix != "";
    ReplaceExtensionShape(first, suffix);
  }

  /** The log lies beside the first read, as "<name>-trimmed.log". */
  lemma TrimLogName(readPaths: seq<string>)
    requires |readPaths| > 0 && SimpleDir(UncompressedReadPaths(readPaths)[0])
    ensures var first := UncompressedReadPaths(readPaths)[0];
      && GetDirectoryName(TrimLog(readPaths)) == GetDirectoryName(first)
      && GetFileName(TrimLog(readPaths)) == GetFileNameWithoutExtension(first) + "-trimmed.log"
  {
    var first := UncompressedReadPaths(readPaths)[0];
    assert TrimLog(readPaths) == ReplaceExtension(first, "-trimmed.log");
    LogBeside(first);
  }

  /** Helper: "-trimmed.log" in place of the extension stays beside the read. */
  lemma LogBeside(first: string)
    requires SimpleDir(first)
    ensures GetDirectoryName(ReplaceExtension(first, "-trimmed.log")) == GetDirectoryName(first)
    ensures GetFileName(ReplaceExtension(first, "-trimmed.log")) == GetFileNameWithoutExtension(first) + "-trimmed.log"
  {
    var suffix := "-trimmed.log";
    assert '/' !in suffix;
    assert |GetFileNameWithoutExtension(first) + suffix| >= |suffix|;
    ReplaceExtensionShape(first, suffix);
  }

  /** The read arguments of the skewer command: the first read, and the second when there is one. */
  function ReadArguments(readPaths: seq<string>, convertWindowsPath: string -> string): string
    requires |readPaths| > 0
  {
    " " + convertWindowsPath(readPaths[0])
    + (if |readPaths| > 1 then " " + convertWindowsPath(readPaths[1]) else "")
  }

  /** The path converter leaves no space in a path. */
  ghost predicate SpaceFree(convertWindowsPath: string -> string)
  {
    forall p :: ' ' !in convertWindowsPath(p)
  }

  /** The command names the first read, the second iff there is more than one, and no other. */
  lemma ReadArgumentsWords(readPaths: seq<string>, convertWindowsPath: string -> string)
    requires |readPaths| > 0 && SpaceFree(convertWindowsPath)
    ensures Split(ReadArguments(readPaths, convertWindowsPath), ' ')
         == ["", convertWindowsPath(readPaths[0])]
            + (if |readPaths| > 1 then [convertWindowsPath(readPaths[1])] else [])
  {
    var a := convertWindowsPath(readPaths[0]);
    assert ' ' !in a;
    if |readPaths| > 1 {
      var b := convertWindowsPath(readPaths[1]);
      assert ' ' !in b;
      assert ReadArguments(readPaths, convertWindowsPath) == " " + a + (" " + b);
      SplitTwoWords(a, b);
      assert ["", a] + [b] == ["", a, b];
    } else {
      assert ReadArguments(readPaths, convertWindowsPath) == " " + a + "";
      SplitOneWord(a);
    }
  }

  /** Helper: " a" splits on spaces into "" and a. */
  lemma SplitOneWord(a: string)
    requires ' ' !in a
    ensures Split(" " + a + "", ' ') == ["", a]
  {
    assert " " + a + "" == "" + [' '] + a;
    SplitNoSeparator(a, ' ');
    SplitConcat("", a, ' ');
  }

  /** Helper: " a b" splits on spaces into "", a and b. */
  lemma SplitTwoWords(a: string, b: string)
    requires ' ' !in a && ' ' !in b
    ensures Split(" " + a + (" " + b), ' ') == ["", a, b]
  {
    assert " " + a + (" " + b) == "" + [' '] + (a + [' '] + b);
    SplitNoSeparator(b, ' ');
    SplitConcat(a, b, ' ');
    SplitConcat("", a + [' '] + b, ' ');
  }

  /** The trimming command line. */
  function SkewerCommand(spritzDirectory: string, threads: int, qualityFilter: int, readPaths: seq<string>,
                         tools: SkewerTools): string
    requires |readPaths| > 0
  {
    var first := UncompressedReadPaths(readPaths)[0];
    var cw := tools.convertWindowsPath;
    "skewer-0.2.2/skewer"
    + " -q " + IntToString(qualityFilter)
    + " -o " + cw(StripExtension(first))
    + " -t " + IntToString(threads)
    + " -x " + cw(Combine(Combine(Combine(Combine(spritzDirectory, "Tools"), "BBMap"), "resources"), "adapters.fa"))
    + ReadArguments(readPaths, cw)
  }

  /** Trimming is skipped when the first output exists and, for paired input, the second. */
  predicate AlreadyTrimmed(fs: FileSystem, readPaths: seq<string>)
    requires |readPaths| > 0
  {
    var t := TrimmedPaths(readPaths);
    Exists(fs, t[0].value) && (|readPaths| == 1 || Exists(fs, t[1].value))
  }

  /** The script `Trim` runs, if any. */
  function TrimScript(spritzDirectory: string, analysisDirectory: string, threads: int, qualityFilter: int,
                      readPaths: seq<string>, dryRun: bool, fs: FileSystem, tools: SkewerTools): Option<Script>
  {
    if |readPaths| == 0 || AlreadyTrimmed(fs, readPaths) || dryRun then None
    else
      Some(Script(analysisDirectory, "Skewered.bash", [
        tools.changeToToolsDirectoryCommand(spritzDirectory),
        SkewerCommand(spritzDirectory, threads, qualityFilter, readPaths, tools)]))
  }

  /**
   * No script without reads, on a dry run, or when the expected outputs exist
   * (existence alone, whatever their size); otherwise the "Skewered.bash" script.
   */
  lemma TrimScriptGuard(spritzDirectory: string, analysisDirectory: string, threads: int, qualityFilter: int,
                        readPaths: seq<string>, dryRun: bool, fs: FileSystem, tools: SkewerTools)
    ensures var s := TrimScript(spritzDirectory, analysisDirectory, threads, qualityFilter, readPaths, dryRun, fs, tools);
      && (s.None? <==> |readPaths| == 0 || dryRun || AlreadyTrimmed(fs, readPaths))
      && (s.Some? ==> s.value.name == "Skewered.bash" && s.value.directory == analysisDirectory
                      && |s.value.commands| == 2)
  {
  }

  /** Sizes never matter to the guard: outputs present with zero bytes still skip trimming. */
  lemma AlreadyTrimmedIgnoresSize(fs: FileSystem, readPaths: seq<string>)
    requires |readPaths| > 0
    ensures var emptied := map p | p in fs :: 0;
      AlreadyTrimmed(fs, readPaths) <==> AlreadyTrimmed(emptied, readPaths)
  {
  }

  /**
   * The `for` loop of `Trim`: a fresh array of n entries holding `path(0)` and
   * `path(1)` at the first two positions and null after them; `Trim` passes the
   * trimmed path of each position as `path`.
   */
  method FillTrimmedPaths(path: int -> Option<string>, n: nat) returns (readTrimmedPaths: array<Option<string>>)
    ensures fresh(readTrimmedPaths) && readTrimmedPaths.Length == n
    ensures forall j :: 0 <= j < n ==> readTrimmedPaths[j] == if j < 2 then path(j) else None
  {
    readTrimmedPaths := new Option<string>[n](_ => None);
    for i := 0 to n
      invariant forall j :: 0 <= j < n ==> readTrimmedPaths[j] == if j < 2 && j < i then path(j) else None
    {
      if i == 0 {
        readTrimmedPaths[0] := path(0);
      }
      if i == 1 {
        readTrimmedPaths[1] := path(1);
      }
    }
  }

  /**
   * One entry per read, the trimmed paths of the first read at the first two
   * positions and null after them: that is `TrimmedPaths`.
   */
  lemma TrimmedPathsFilled(readPaths: seq<string>, path: int -> Option<string>, a: seq<Option<string>>)
    requires |readPaths| > 0 && |a| == |readPaths|
    requires forall i :: path(i) == TrimmedPath(UncompressedReadPaths(readPaths)[0], |readPaths| > 1, i)
    requires forall j :: 0 <= j < |a| ==> a[j] == if j < 2 then path(j) else None
    ensures a == TrimmedPaths(readPaths)
  {
    var first, paired := UncompressedReadPaths(readPaths)[0], |readPaths| > 1;
    var t := TrimmedPathsFrom(first, paired, |a|);
    forall j | 0 <= j < |a|
      ensures a[j] == t[j]
    {
      TrimmedPathAt(first, paired, |a|, j);
    }
  }

  /**
   * `Trim`: fills the trimmed-path array, one entry per read, and returns it,
   * the log path and the script it would run.
   */
  method Trim(spritzDirectory: string, analysisDirectory: string, threads: int, qualityFilter: int,
              readPaths: seq<string>, dryRun: bool, fs: FileSystem, tools: SkewerTools)
    returns (readTrimmedPaths: array<Option<string>>, log: string, script: Option<Script>)
    ensures fresh(readTrimmedPaths)
    ensures readTrimmedPaths[..] == TrimmedPaths(readPaths)
    ensures log == TrimLog(readPaths)
    ensures script == TrimScript(spritzDirectory, analysisDirectory, threads, qualityFilter, readPaths, dryRun, fs, tools)
  {
    log := "";
    script := None;
    if |readPaths| <= 0 {
      readTrimmedPaths := new Option<string>[0];
      return;
    }
    var uncompressedReadPaths := UncompressedReadPaths(readPaths);
    var path := i => TrimmedPath(uncompressedReadPaths[0], |uncompressedReadPaths| > 1, i);
    readTrimmedPaths := FillTrimmedPaths(path, |readPaths|);
    TrimmedPathsFilled(readPaths, path, readTrimmedPaths[..]);
    log := TrimLog(readPaths);
    var alreadyTrimmed := Exists(fs, readTrimmedPaths[0].value)
      && (|readPaths| == 1 || Exists(fs, readTrimmedPaths[1].value));
    assert alreadyTrimmed == AlreadyTrimmed(fs, readPaths);
    if alreadyTrimmed || dryRun {
      TrimScriptGuard(spritzDirectory, analysisDirectory, threads, qualityFilter, readPaths, dryRun, fs, tools);
      return;
    }
    script := Some(Script(analysisDirectory, "Skewered.bash", [
      tools.changeToToolsDirectoryCommand(spritzDirectory),
      SkewerCommand(spritzDirectory, threads, qualityFilter, readPaths, tools)]));
  }
}
