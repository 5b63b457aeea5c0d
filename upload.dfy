/**
 * The image upload middleware: which files are accepted, how a stored file is named, and the
 * size limit. File names follow `path.extname` of Node.js on POSIX paths.
 */
module Upload {
  import opened Text

  /** 5 MB: the largest file accepted, in bytes. */
  const MaxFileSize: int := 5 * 1024 * 1024

  lemma MaxFileSizeValue()
    ensures MaxFileSize == 5242880
  {
  }

  datatype FilterResult = Accepted | Rejected(message: string)

  const SoloImagenes: string := "Solo se permiten imágenes"
  const ImagePrefix: string := "image/"

  /** `fileFilter`: accepts a file exactly when its MIME type starts with "image/". */
  function FileFilter(mimetype: string): (r: FilterResult)
    ensures r.Accepted? <==> StartsWith(mimetype, ImagePrefix)
    ensures r.Rejected? ==> r.message == SoloImagenes
  {
    if StartsWith(mimetype, ImagePrefix) then Accepted else Rejected(SoloImagenes)
  }

  /** A MIME type that merely contains "image/" further on is refused: "text/image/png". */
  lemma OnlyLeadingImageAccepted()
    ensures FileFilter("image/png").Accepted?
    ensures FileFilter("text/image/png").Rejected?
  {
    assert "image/png"[..6] == ImagePrefix;
    assert "text/image/png"[0] != ImagePrefix[0];
  }

  /** The path without its trailing slashes. */
  function StripTrailingSlashes(p: string): (r: string)
    ensures |r| <= |p| && r == p[..|r|]
    ensures r == [] || r[|r| - 1] != '/'
    ensures forall i :: |r| <= i < |p| ==> p[i] == '/'
  {
    if p != [] && p[|p| - 1] == '/' then StripTrailingSlashes(p[..|p| - 1]) else p
  }

  /** The position of the last `c` in `s`, if any. */
  function LastIndex(s: string, c: char): (k: int)
    ensures -1 <= k < |s|
    ensures k >= 0 ==> s[k] == c
    ensures forall i :: k < i < |s| ==> s[i] != c
  {
    if s == [] then -1
    else if s[|s| - 1] == c then |s| - 1
    else LastIndex(s[..|s| - 1], c)
  }

  /** The last path segment, ignoring trailing slashes. */
  function Basename(p: string): (b: string)
    ensures '/' !in b
  {
    var s := StripTrailingSlashes(p);
    var k := LastIndex(s, '/');
    s[k + 1..]
  }

  /**
   * `path.extname`: from the last "." of the base name to its end; empty when the base name has
   * no ".", when its only "." is its first character (".bashrc"), and for "..".
   */
  function Extname(p: string): (ext: string)
    ensures ext == [] || (ext[0] == '.' && '.' !in ext[1..] && '/' !in ext)
    ensures ext != [] ==> exists d :: 0 < d < |Basename(p)| && ext == Basename(p)[d..]
  {
    var b := Basename(p);
    var d := LastIndex(b, '.');
    if d <= 0 || b == ".." then [] else b[d..]
  }

  /** `file.fieldname + '-' + uniqueSuffix + extension`, with the unique suffix given. */
  function StoredFilename(fieldname: string, suffix: string, originalname: string): (name: string)
    ensures |name| == |fieldname| + 1 + |suffix| + |Extname(originalname)|
    ensures name[..|fieldname|] == fieldname && name[|fieldname|] == '-'
    ensures name[|fieldname| + 1..|fieldname| + 1 + |suffix|] == suffix
    ensures name[|fieldname| + 1 + |suffix|..] == Extname(originalname)
  {
    fieldname + "-" + suffix + Extname(originalname)
  }

  /**
   * A stored name starts with the field name and "-", carries the suffix right after it, and ends
   * with the original extension.
   */
  lemma StoredFilenameShape(fieldname: string, suffix: string, originalname: string)
    ensures var n := StoredFilename(fieldname, suffix, originalname);
            && StartsWith(n, fieldname + "-")
            && n[|fieldname| + 1..|fieldname| + 1 + |suffix|] == suffix
            && n[|fieldname| + 1 + |suffix|..] == Extname(originalname)
  {
    var n := StoredFilename(fieldname, suffix, originalname);
    assert n == (fieldname + "-") + suffix + Extname(originalname);
  }

  /** Two uploads with different suffixes get different names, whatever the client called the files. */
  lemma DistinctSuffixesDistinctNames(fieldname: string, s1: string, s2: string, o1: string, o2: string)
    requires |s1| == |s2| && s1 != s2
    ensures StoredFilename(fieldname, s1, o1) != StoredFilename(fieldname, s2, o2)
  {
    StoredFilenameShape(fieldname, s1, o1);
    StoredFilenameShape(fieldname, s2, o2);
  }

  /**
   * A plain name keeps its last extension, letter case included: "archivo.tar.gz" gives ".gz" and
   * "foto.JPG" gives ".JPG".
   */
  lemma ExtnameOfPlainName(stem: string, ext: string)
    requires stem != [] && ext != []
    requires '/' !in stem && '/' !in ext && '.' !in ext
    ensures Extname(stem + "." + ext) == "." + ext
  {
    var n := stem + "." + ext;
    assert n[|n| - 1] == ext[|ext| - 1];
    assert StripTrailingSlashes(n) == n;
    assert '/' !in n by {
      forall i | 0 <= i < |n| ensures n[i] != '/' {
        if i < |stem| { assert n[i] == stem[i]; }
        else if i > |stem| { assert n[i] == ext[i - |stem| - 1]; }
      }
    }
    assert LastIndex(n, '/') == -1;
    assert n[|stem|] == '.';
    assert forall i :: |stem| < i < |n| ==> n[i] == ext[i - |stem| - 1];
    assert LastIndex(n, '.') == |stem|;
    assert n[|stem|..] == "." + ext;
  }

  /** A name whose only dot is its first character has no extension: ".bashrc" gives "". */
  lemma NoExtensionForDotFile(name: string)
    requires name != [] && name[0] == '.'
    requires '/' !in name && '.' !in name[1..]
    ensures Extname(name) == ""
  {
    assert StripTrailingSlashes(name) == name;
    assert LastIndex(name, '/') == -1;
    assert forall i :: 1 <= i < |name| ==> name[i] == name[1..][i - 1];
    assert LastIndex(name, '.') == 0;
  }

  /** A name without any dot has no extension. */
  lemma NoExtensionWithoutDot(p: string)
    requires '.' !in p
    ensures Extname(p) == ""
  {
    var s := StripTrailingSlashes(p);
    var b := Basename(p);
    assert b == s[LastIndex(s, '/') + 1..];
    assert forall i :: 0 <= i < |b| ==> b[i] == p[LastIndex(s, '/') + 1 + i];
    assert '.' !in b;
  }
}
