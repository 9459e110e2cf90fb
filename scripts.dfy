/**
 * The effects the wrappers hand to the shell. A wrapper does not run anything in
 * this model: it returns the scripts it would generate (the script's file name,
 * the directory whose analysis-script folder holds it, and its command lines) and
 * the files it would write itself, and the caller's file system is a map from path
 * to size in bytes.
 */
module Scripts {

  /** A generated bash script: `GetAnalysisScriptPath(directory, name)` with its lines. */
  datatype Script = Script(directory: string, name: string, commands: seq<string>)

  /** Path to size in bytes; a path absent from the map does not exist. */
  type FileSystem = map<string, nat>

  /** `File.Exists(p)`. */
  predicate Exists(fs: FileSystem, p: string)
  {
    p in fs
  }

  /** A file that exists with at least one byte. */
  predicate NonEmpty(fs: FileSystem, p: string)
  {
    p in fs && fs[p] > 0
  }
}
