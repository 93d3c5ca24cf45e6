/** The upload configuration: the size limit, the file filter on the
    extension of the original file name, and the name under which an accepted
    file is stored. Extensions are computed as Node's POSIX `path.extname` does. */
module Upload {
  import opened Common

  const FileSizeLimit: nat := 1024 * 1024
  const AllowedExtensions: seq<string> := [".jpg", ".jpeg", ".png"]
  const UnsupportedType: string := "File type is not supported"

  /** The size limit is one mebibyte; the allowed extensions are a dot followed by letters. */
  lemma UploadConstants()
    ensures FileSizeLimit == 1048576
    ensures forall e :: e in AllowedExtensions ==> |e| >= 4 && e[0] == '.' && '.' !in e[1..]
  {
    assert AllowedExtensions[1][1..] == "jpeg";
  }

  // ---------------------------------------------------------------------------
  // path.extname

  /** The last index holding `c`, or -1. */
  function LastIndexOf(s: string, c: char): (i: int)
    ensures i == -1 <==> c !in s
    ensures i != -1 ==> 0 <= i < |s| && s[i] == c && c !in s[i + 1..]
  {
    if s == [] then -1
    else if s[|s| - 1] == c then |s| - 1
    else
      var k := LastIndexOf(s[..|s| - 1], c);
      assert k != -1 ==> s[k + 1..] == s[..|s| - 1][k + 1..] + [s[|s| - 1]];
      assert k == -1 ==> s == s[..|s| - 1] + [s[|s| - 1]];
      k
  }

  /** The path with its trailing slashes removed. */
  function StripTrailingSlashes(p: string): (r: string)
    ensures |r| <= |p| && r == p[..|r|]
    ensures r != [] ==> r[|r| - 1] != '/'
  {
    if p != [] && p[|p| - 1] == '/' then StripTrailingSlashes(p[..|p| - 1]) else p
  }

  /** The last path component (`path.basename` without a suffix argument). */
  function LastComponent(p: string): (comp: string)
    ensures '/' !in comp
  {
    var t := StripTrailingSlashes(p);
    var k := LastIndexOf(t, '/');
    t[k + 1..]
  }

  /** `path.extname`: from the last dot of the last component to its end; empty
      when the component has no dot, when its only dot is its first character
      (`.png`), and for `..`. */
  function ExtName(p: string): (ext: string)
    ensures ext == [] || (ext[0] == '.' && '.' !in ext[1..])
  {
    var comp := LastComponent(p);
    var d := LastIndexOf(comp, '.');
    if d <= 0 || comp == ".." then "" else comp[d..]
  }

  /** A name without slashes is its own last component. */
  lemma SlashFreeComponent(name: string)
    requires '/' !in name
    ensures LastComponent(name) == name
  {
    assert StripTrailingSlashes(name) == name;
  }

  /** The last dot of a string ending in a dot-led, dot-free-after suffix is the suffix's dot. */
  lemma LastDotOfSuffix(prefix: string, ext: string)
    requires ext != [] && ext[0] == '.' && '.' !in ext[1..]
    ensures LastIndexOf(prefix + ext, '.') == |prefix|
  {
    var s := prefix + ext;
    assert s[|prefix|] == '.';
    assert s[|prefix| + 1..] == ext[1..];
  }

  /** For a name without slashes whose tail is a dot-led suffix, that suffix is
      the extension as long as something precedes it. */
  lemma ExtNameOfSuffix(prefix: string, ext: string)
    requires ext != [] && ext[0] == '.' && '.' !in ext[1..]
    requires '/' !in prefix + ext && prefix != [] && |prefix + ext| >= 3
    ensures ExtName(prefix + ext) == ext
  {
    SlashFreeComponent(prefix + ext);
    LastDotOfSuffix(prefix, ext);
    assert |prefix + ext| >= 3;
    assert (prefix + ext)[|prefix|..] == ext;
  }

  // ---------------------------------------------------------------------------
  // fileFilter

  /** The filter's callback arguments: the error passed, and whether the file is accepted. */
  datatype FilterDecision = FilterDecision(error: Option<string>, accept: bool)

  /** `fileFilter` on the original file name. */
  function FileFilter(originalname: string): (r: FilterDecision)
    ensures r.accept <==> ToLower(ExtName(originalname)) in AllowedExtensions
    ensures r.accept <==> r.error.None?
    ensures !r.accept ==> r.error == Some(UnsupportedType)
  {
    if ToLower(ExtName(originalname)) !in AllowedExtensions then FilterDecision(Some(UnsupportedType), false)
    else FilterDecision(None, true)
  }

  /** Lower-casing never produces a dot from anything but a dot. */
  lemma LowerDot(c: char)
    ensures LowerChar(c) == '.' <==> c == '.'
  {
  }

  /** The extension of a name without slashes, read off its last dot. */
  lemma ExtNameSlashFree(name: string)
    requires '/' !in name
    ensures var d := LastIndexOf(name, '.');
            ExtName(name) == if d <= 0 || name == ".." then "" else name[d..]
  {
    SlashFreeComponent(name);
  }

  /** An accepted file has an extension of at least four characters. */
  lemma AcceptedExtensionLength(name: string)
    requires FileFilter(name).accept
    ensures |ExtName(name)| >= 4
  {
    UploadConstants();
  }

  /** The accepted extension is a suffix of the name, after something else. */
  lemma AcceptedHasAllowedSuffix(name: string)
    requires '/' !in name && FileFilter(name).accept
    ensures var e := ToLower(ExtName(name));
            e in AllowedExtensions && |name| > |e| && ToLower(name[|name| - |e|..]) == e
  {
    ExtNameSlashFree(name);
    AcceptedExtensionLength(name);
    var d := LastIndexOf(name, '.');
    assert ExtName(name) == name[d..] && d > 0;
  }

  /** A name ending, after something else, in an allowed extension in any case is accepted. */
  lemma AllowedSuffixAccepted(name: string, e: string)
    requires '/' !in name && e in AllowedExtensions && |name| > |e| && ToLower(name[|name| - |e|..]) == e
    ensures FileFilter(name).accept
  {
    UploadConstants();
    var prefix, tail := name[..|name| - |e|], name[|name| - |e|..];
    assert name == prefix + tail;
    LowerDot(tail[0]);
    forall k | 1 <= k < |tail| ensures tail[k] != '.' {
      LowerDot(tail[k]);
      assert e[k] in e[1..];
    }
    ExtNameOfSuffix(prefix, tail);
  }

  /** A file name without slashes is accepted exactly when it ends, after
      something else, in an allowed extension in any letter case. */
  lemma FileFilterBySuffix(name: string)
    requires '/' !in name
    ensures FileFilter(name).accept <==>
              exists e :: e in AllowedExtensions && |name| > |e| && ToLower(name[|name| - |e|..]) == e
  {
    if FileFilter(name).accept {
      AcceptedHasAllowedSuffix(name);
    }
    if exists e :: e in AllowedExtensions && |name| > |e| && ToLower(name[|name| - |e|..]) == e {
      var e :| e in AllowedExtensions && |name| > |e| && ToLower(name[|name| - |e|..]) == e;
      AllowedSuffixAccepted(name, e);
    }
  }

  /** Names equal up to letter case have their dots at the same places. */
  lemma SameDots(a: string, b: string)
    requires ToLower(a) == ToLower(b)
    ensures LastIndexOf(a, '.') == LastIndexOf(b, '.')
    ensures a == ".." <==> b == ".."
  {
    forall i | 0 <= i < |a| ensures a[i] == '.' <==> b[i] == '.' {
      LowerDot(a[i]);
      LowerDot(b[i]);
    }
    if a == ".." { assert b[0] == '.' && b[1] == '.'; }
    if b == ".." { assert a[0] == '.' && a[1] == '.'; }
  }

  /** Matching ignores letter case: names that differ only in case (`photo.PNG`,
      `photo.png`) are judged alike. */
  lemma FileFilterIgnoresCase(name1: string, name2: string)
    requires '/' !in name1 && '/' !in name2
    requires ToLower(name1) == ToLower(name2)
    ensures FileFilter(name1) == FileFilter(name2)
  {
    ExtNameIgnoresCase(name1, name2);
  }

  /** Names equal up to letter case have extensions equal up to letter case. */
  lemma ExtNameIgnoresCase(a: string, b: string)
    requires '/' !in a && '/' !in b
    requires ToLower(a) == ToLower(b)
    ensures ToLower(ExtName(a)) == ToLower(ExtName(b))
  {
    ExtNameSlashFree(a);
    ExtNameSlashFree(b);
    SameDots(a, b);
    var d := LastIndexOf(a, '.');
    if d <= 0 || a == ".." {
      assert ExtName(a) == [] && ExtName(b) == [];
    } else {
      assert ExtName(a) == a[d..] && ExtName(b) == b[d..];
      LowerSuffix(a, d);
      LowerSuffix(b, d);
    }
  }

  /** Lower-casing commutes with taking a suffix. */
  lemma LowerSuffix(s: string, d: nat)
    requires d <= |s|
    ensures ToLower(s[d..]) == ToLower(s)[d..]
  {
  }

  /** Only the last extension counts: `x.png.exe` is judged by `.exe`,
      `x.exe.png` by `.png`. */
  lemma FileFilterLastExtension(stem: string, ext: string)
    requires ext != [] && ext[0] == '.' && '.' !in ext[1..]
    requires '/' !in stem + ext && stem != [] && |stem + ext| >= 3
    ensures FileFilter(stem + ext).accept <==> ToLower(ext) in AllowedExtensions
  {
    ExtNameOfSuffix(stem, ext);
  }

  /** A dot-file such as `.png`, whose only dot comes first, has no extension and is refused. */
  lemma FileFilterRefusesDotFile(name: string)
    requires name != [] && name[0] == '.' && '.' !in name[1..] && '/' !in name
    ensures ExtName(name) == "" && !FileFilter(name).accept
  {
    ExtNameSlashFree(name);
    var d := LastIndexOf(name, '.');
    assert name[0] in name;
    assert d == 0;
  }

  /** A name without a dot has no extension and is refused. */
  lemma FileFilterRefusesNoDot(name: string)
    requires '.' !in name
    ensures ExtName(name) == "" && !FileFilter(name).accept
  {
  }

  // ---------------------------------------------------------------------------
  // filename

  /** The stored name: field name, '-', the upload time in milliseconds and the
      original extension with its case kept. */
  function StoredFilename(fieldname: string, now: nat, originalname: string): (r: string)
    ensures |r| > |fieldname| + 1 && r[..|fieldname| + 1] == fieldname + "-"
  {
    var r := fieldname + "-" + Decimal(now) + ExtName(originalname);
    assert r[..|fieldname| + 1] == fieldname + "-";
    r
  }

  /** The stored file keeps the original's extension, so the filter would judge
      the stored name as it judged the original. */
  lemma StoredFilenameKeepsExtension(fieldname: string, now: nat, originalname: string)
    requires '/' !in fieldname
    requires ExtName(originalname) != ""
    ensures ExtName(StoredFilename(fieldname, now, originalname)) == ExtName(originalname)
    ensures FileFilter(StoredFilename(fieldname, now, originalname)) == FileFilter(originalname)
  {
    var ext := ExtName(originalname);
    var prefix := fieldname + "-" + Decimal(now);
    assert StoredFilename(fieldname, now, originalname) == prefix + ext;
    assert '/' !in Decimal(now);
    assert '/' !in ext by {
      assert '/' !in LastComponent(originalname);
    }
    ExtNameOfSuffix(prefix, ext);
  }
}
