/** `Printer`: the path helpers around reading and writing design models.
    The input path is split into its directory (everything before the last
    '/') and its file name (between the last '/' and the last '.'); models
    are written to `<dir>/<name>.fiodl` and visualisations to
    `<dir>/<name>.kgt`, where both parts may have been changed in between. */
module Printing {
  import opened Graphs
  import opened Text

  const Fiodl: string := "fiodl"
  const Kgt: string := "kgt"
  const FiodlExt: string := "." + Fiodl
  const KgtExt: string := "." + Kgt

  /** `s.substring(begin, end)`: the characters from `begin` up to, not
      including, `end`; out-of-range or crossed bounds throw. */
  function Substring(s: string, begin: int, end: int): (r: Result<string>)
    ensures r.Ok? <==> 0 <= begin <= end <= |s|
    ensures r.Ok? ==> |r.value| == end - begin && forall i :: 0 <= i < |r.value| ==> r.value[i] == s[begin + i]
    ensures r.Err? ==> r.error == IndexOutOfBounds
  {
    if 0 <= begin <= end <= |s| then Ok(s[begin..end]) else Err(IndexOutOfBounds)
  }

  /** `SetFileDir`'s computation: the path before its last '/'. A path
      without '/' throws. */
  function DirOf(path: string): (r: Result<string>)
    ensures r.Ok? <==> '/' in path
    ensures r.Ok? ==> r.value + "/" <= path && '/' !in path[|r.value| + 1..]
    ensures r.Err? ==> r.error == IndexOutOfBounds
  {
    Substring(path, 0, LastIndexOf(path, '/'))
  }

  /** `SetFileName`'s computation: the path between its last '/' and its
      last '.'. It throws unless some '.' follows the last '/'. */
  function NameOf(path: string): (r: Result<string>)
    ensures r.Ok? <==> LastIndexOf(path, '.') > LastIndexOf(path, '/')
    ensures r.Ok? ==> r.value == path[LastIndexOf(path, '/') + 1..LastIndexOf(path, '.')] && '/' !in r.value
    ensures r.Err? ==> r.error == IndexOutOfBounds
  {
    var slash, dot := LastIndexOf(path, '/'), LastIndexOf(path, '.');
    var r := Substring(path, slash + 1, dot);
    if r.Ok? then
      assert r.value == path[slash + 1..dot];
      assert '/' !in r.value by {
        forall i | 0 <= i < |r.value| ensures r.value[i] != '/' {
          assert r.value[i] == path[slash + 1 + i];
        }
      }
      r
    else r
  }

  /** The path `PrintFIODL` and `PrintKGT` write to. */
  function OutPath(dir: string, name: string, ext: string): string
  {
    dir + "/" + name + ext
  }

  /** Splitting a path and building the output path again gives back the
      path when it already has the form `<dir>/<name>.<ext>`, the name holds
      no '/' and the extension no '/' or '.'. */
  lemma PathRoundTrip(dir: string, name: string, ext: string)
    requires '/' !in name && '/' !in ext && '.' !in ext
    ensures var path := OutPath(dir, name, "." + ext);
            DirOf(path) == Ok(dir) && NameOf(path) == Ok(name)
  {
    var path := OutPath(dir, name, "." + ext);
    var tail := name + "." + ext;
    assert '/' !in tail by {
      forall i | 0 <= i < |tail| ensures tail[i] != '/' {
        if i < |name| {
          assert tail[i] == name[i];
        } else if i > |name| {
          assert tail[i] == ext[i - |name| - 1];
        }
      }
    }
    assert path == dir + ['/'] + tail;
    LastIndexOfSplit(dir, '/', tail);
    assert path == (dir + "/" + name) + ['.'] + ext;
    LastIndexOfSplit(dir + "/" + name, '.', ext);
    assert path[..|dir|] == dir;
    assert path[|dir| + 1..|dir| + 1 + |name|] == name;
  }

  /** Reads and writes design models at paths derived from one input path. */
  class Printer {
    var filePath: string
    var fileName: string
    var fileDir: string

    /** The fields before the constructor's helpers run (Java leaves them
        null; they are empty here and never read before being set). */
    constructor Raw(path: string)
      ensures filePath == path && fileName == "" && fileDir == ""
    {
      filePath := path;
      fileName := "";
      fileDir := "";
    }

    /** `new Printer(filePath)`: the file name, then the directory, taken
        from the path; a path that cannot be split throws and yields no
        printer. */
    static method New(path: string) returns (outcome: Outcome, p: Printer?)
      ensures outcome == Done <==> NameOf(path).Ok? && DirOf(path).Ok?
      ensures outcome != Done ==> outcome == Thrown(IndexOutOfBounds) && p == null
      ensures outcome == Done ==>
                p != null && fresh(p) && p.filePath == path &&
                p.fileName == NameOf(path).value && p.fileDir == DirOf(path).value
    {
      var q := new Printer.Raw(path);
      outcome := q.SetFileName();
      if outcome != Done {
        return outcome, null;
      }
      outcome := q.SetFileDir();
      if outcome != Done {
        return outcome, null;
      }
      p := q;
    }

    /** `SetFileDir`. */
    method SetFileDir() returns (outcome: Outcome)
      modifies this
      ensures var d := DirOf(filePath);
              (d.Ok? ==> outcome == Done && fileDir == d.value) &&
              (d.Err? ==> outcome == Thrown(d.error) && fileDir == old(fileDir))
      ensures filePath == old(filePath) && fileName == old(fileName)
    {
      var d := DirOf(filePath);
      if d.Err? {
        return Thrown(d.error);
      }
      fileDir := d.value;
      outcome := Done;
    }

    /** `SetFileName`. */
    method SetFileName() returns (outcome: Outcome)
      modifies this
      ensures var n := NameOf(filePath);
              (n.Ok? ==> outcome == Done && fileName == n.value) &&
              (n.Err? ==> outcome == Thrown(n.error) && fileName == old(fileName))
      ensures filePath == old(filePath) && fileDir == old(fileDir)
    {
      var n := NameOf(filePath);
      if n.Err? {
        return Thrown(n.error);
      }
      fileName := n.value;
      outcome := Done;
    }

    /** `SetOutDir`: later writes go to `outDir`; the input path is kept. */
    method SetOutDir(outDir: string)
      modifies this
      ensures fileDir == outDir
      ensures filePath == old(filePath) && fileName == old(fileName)
    {
      fileDir := outDir;
    }

    /** `AppendToFileName`: later writes use the longer name; the input
        path is kept. */
    method AppendToFileName(suffix: string)
      modifies this
      ensures fileName == old(fileName) + suffix
      ensures filePath == old(filePath) && fileDir == old(fileDir)
    {
      fileName := fileName + suffix;
    }

    /** `PrintFIODL`: the path the model is written to and the line printed
        about it (the write itself is not modelled). */
    method PrintFIODL() returns (outPath: string, message: string)
      ensures outPath == OutPath(fileDir, fileName, FiodlExt)
      ensures message == "Design model '" + fileName + "' written to '" + outPath + "'\n"
    {
      outPath := fileDir + "/" + fileName + FiodlExt;
      message := "Design model '" + fileName + "' written to '" + outPath + "'\n";
    }

    /** `PrintKGT`: as `PrintFIODL`, for the visualisation. */
    method PrintKGT() returns (outPath: string, message: string)
      ensures outPath == OutPath(fileDir, fileName, KgtExt)
      ensures message == "Visualization of '" + fileName + "' model written to '" + outPath + "'\n"
    {
      outPath := fileDir + "/" + fileName + KgtExt;
      message := "Visualization of '" + fileName + "' model written to '" + outPath + "'\n";
    }

    /** `Read`: the path the model is loaded from (the load itself is not
        modelled). */
    method Read() returns (inPath: string)
      ensures inPath == filePath
    {
      inPath := filePath;
    }
  }

  /** A printer made from `<dir>/<name>.fiodl` writes its model back to the
      same path, and its visualisation next to it. */
  lemma NewWritesBack(dir: string, name: string)
    requires '/' !in name
    ensures var path := OutPath(dir, name, FiodlExt);
            NameOf(path) == Ok(name) && DirOf(path) == Ok(dir) &&
            OutPath(DirOf(path).value, NameOf(path).value, FiodlExt) == path &&
            OutPath(DirOf(path).value, NameOf(path).value, KgtExt) == OutPath(dir, name, KgtExt)
  {
    PathRoundTrip(dir, name, Fiodl);
    PathRoundTrip(dir, name, Kgt);
  }
}
