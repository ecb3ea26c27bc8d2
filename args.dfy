/**
 * The command-line parser of the examples: the directory to save to, and
 * the joining of a directory and a file name.
 */
module Args {

  /** Whether a path ends in a directory separator. */
  predicate EndsInSlash(path: string)
  {
    |path| > 0 && path[|path| - 1] == '/'
  }

  /** A directory path with a `/` appended unless it already ends in one. */
  function AsDirectory(path: string): (r: string)
    requires |path| > 0
    ensures EndsInSlash(r)
    ensures EndsInSlash(path) ==> r == path
    ensures !EndsInSlash(path) ==> r == path + "/"
  {
    if path[|path| - 1] != '/' then path + "/" else path
  }

  /**
   * `join_paths(head, tail)`: the head, one `/` when the head does not end
   * in one, then the tail. The head must not be empty (its last character
   * is read).
   */
  function JoinPaths(head: string, tail: string): (r: string)
    requires |head| > 0
  {
    var dir := if head[|head| - 1] != '/' then head + "/" else head;
    dir + tail
  }

  /**
   * The joined path starts with the head and ends with the tail, and what
   * lies before the tail is the head as a directory: at most one separator
   * is added, and none when the head already ends in one.
   */
  lemma JoinPathsShape(head: string, tail: string)
    requires |head| > 0
    ensures var r := JoinPaths(head, tail);
      head <= r && r[|r| - |tail|..] == tail &&
      r[..|r| - |tail|] == AsDirectory(head) &&
      |r| == |head| + |tail| + (if EndsInSlash(head) then 0 else 1)
  {
    var r := JoinPaths(head, tail);
    assert r == AsDirectory(head) + tail;
    assert r[..|AsDirectory(head)|] == AsDirectory(head);
  }

  /**
   * A path normalised as the parser normalises its save path is left as it
   * is by a second normalisation, and joining a file name to it adds no
   * separator.
   */
  lemma JoinToDirectory(path: string, file: string)
    requires |path| > 0
    ensures AsDirectory(AsDirectory(path)) == AsDirectory(path)
    ensures JoinPaths(AsDirectory(path), file) == AsDirectory(path) + file
  {
  }

  class ArgumentParser {
    /** Where the example programs save their networks: empty, or a directory ending in `/`. */
    var savePath: string

    /**
     * `ArgumentParser(argc, argv)`: with fewer than two arguments the save
     * path stays empty; otherwise it is the first argument as a directory.
     * The first argument must not be empty (its last character is read).
     */
    constructor (argv: seq<string>)
      requires |argv| >= 2 ==> |argv[1]| > 0
      ensures |argv| < 2 ==> savePath == ""
      ensures |argv| >= 2 ==> savePath == AsDirectory(argv[1])
    {
      savePath := "";
      new;
      if |argv| < 2 {
        return;
      }
      savePath := argv[1];
      if savePath[|savePath| - 1] != '/' {
        savePath := savePath + "/";
      }
    }
  }
}
