/**
 * file_sorter/lib/path_helpers.py: where a sorted file goes and what it is
 * called. The EXIF date parse, the file's modification time and the clock are
 * inputs; the path functions are those of Python's posixpath.
 */
module PathHelpers {
  import opened Wrappers
  import opened Strings

  // ---------------------------------------------------------------------
  // Dates
  // ---------------------------------------------------------------------

  type Year = y: nat | 1 <= y <= 9999 witness 1
  type Month = m: nat | 1 <= m <= 12 witness 1
  type Day = d: nat | 1 <= d <= 31 witness 1

  /** A Python datetime, down to the second. */
  datatype DateTime = DateTime(year: Year, month: Month, day: Day, hour: nat, minute: nat, second: nat)

  /** %B in the C locale. */
  const MonthNames: seq<string> := [
    "January", "February", "March", "April", "May", "June", "July",
    "August", "September", "October", "November", "December"
  ]

  function MonthName(m: Month): string {
    MonthNames[m - 1]
  }

  /** %Y */
  function YearText(d: DateTime): string {
    NatToString(d.year)
  }

  /** %Y-%m-%d */
  function DateText(d: DateTime): string {
    YearText(d) + "-" + Pad2(d.month) + "-" + Pad2(d.day)
  }

  /** %H%M%S */
  function TimeText(d: DateTime): string {
    Pad2(d.hour) + Pad2(d.minute) + Pad2(d.second)
  }

  /**
   * The date the file is filed under: a non-empty EXIF DateTimeOriginal that
   * parses, else the modification time when it can be read, else now.
   * parseExif stands for strptime with '%Y:%m:%d %H:%M:%S'; mtime is None when
   * getmtime or fromtimestamp raises.
   */
  function FileDate(exifOriginal: Option<string>, parseExif: string -> Option<DateTime>,
                    mtime: Option<DateTime>, now: DateTime): (d: DateTime)
    ensures exifOriginal.Some? && exifOriginal.value != "" && parseExif(exifOriginal.value).Some? ==>
              d == parseExif(exifOriginal.value).value
    ensures !(exifOriginal.Some? && exifOriginal.value != "" && parseExif(exifOriginal.value).Some?) ==>
              d == (if mtime.Some? then mtime.value else now)
  {
    var fromExif :=
      if exifOriginal.Some? && exifOriginal.value != "" then parseExif(exifOriginal.value) else None;
    if fromExif.Some? then fromExif.value
    else if mtime.Some? then mtime.value
    else now
  }

  // ---------------------------------------------------------------------
  // Paths
  // ---------------------------------------------------------------------

  /** s.rfind(c): the last index of c, or -1. */
  function LastIndex(s: string, c: char): (k: int)
    ensures -1 <= k < |s|
    ensures k >= 0 ==> s[k] == c
    ensures forall i :: k < i < |s| ==> s[i] != c
    decreases |s|
  {
    if s == [] then -1
    else if s[|s| - 1] == c then |s| - 1
    else LastIndex(s[..|s| - 1], c)
  }

  /** A position holding c with no c after it is the last index of c. */
  lemma LastIndexAt(s: string, c: char, k: nat)
    requires k < |s| && s[k] == c
    requires forall i :: k < i < |s| ==> s[i] != c
    ensures LastIndex(s, c) == k
  {
  }

  /** Without c, there is no last index of it. */
  lemma LastIndexAbsent(s: string, c: char)
    requires c !in s
    ensures LastIndex(s, c) == -1
  {
  }

  /** os.path.basename: the text after the last slash. */
  function Basename(p: string): (b: string)
    ensures '/' !in b
  {
    var k := LastIndex(p, '/');
    p[k + 1..]
  }

  /**
   * Where os.path.splitext cuts p: at the last dot when it comes after the last
   * slash and something other than a dot stands before it in the last
   * component (leading dots do not start an extension); otherwise at the end.
   */
  function ExtStart(p: string): (k: nat)
    ensures k <= |p|
    ensures k < |p| ==> p[k] == '.' && forall i :: k < i < |p| ==> p[i] != '.' && p[i] != '/'
  {
    var sep := LastIndex(p, '/');
    var dot := LastIndex(p, '.');
    if dot > sep && exists i :: sep + 1 <= i < dot && p[i] != '.' then dot else |p|
  }

  /** os.path.splitext(p)[0] */
  function Root(p: string): string {
    p[..ExtStart(p)]
  }

  /** os.path.splitext(p)[1] */
  function Extension(p: string): (e: string)
    ensures e == [] || (e[0] == '.' && '/' !in e && '.' !in e[1..])
  {
    var k := ExtStart(p);
    var e := p[k..];
    assert forall i :: 0 <= i < |e| ==> e[i] == p[k + i];
    e
  }

  /** splitext splits: the root and the extension make the path again. */
  lemma SplitExtRejoins(p: string)
    ensures Root(p) + Extension(p) == p
  {
  }

  /** A name that is not a bare dot run, a dot, then a dot-free extension is split at that dot. */
  lemma ExtensionOfSuffix(stem: string, ext: string)
    requires '/' !in stem && '/' !in ext
    requires stem != [] && stem[0] != '.'
    requires ext != [] && ext[0] == '.' && '.' !in ext[1..]
    ensures Extension(stem + ext) == ext
  {
    var p := stem + ext;
    LastIndexAbsent(p, '/');
    forall i | |stem| < i < |p| ensures p[i] != '.' {
      assert p[i] == ext[1..][i - |stem| - 1];
    }
    LastIndexAt(p, '.', |stem|);
    assert p[0] != '.';
    assert p[|stem|..] == ext;
  }

  /** posixpath.join for two components. */
  function PathJoin(a: string, b: string): string {
    if StartsWith(b, "/") then b
    else if a == [] || a[|a| - 1] == '/' then a + b
    else a + "/" + b
  }

  function RStripSlashes(s: string): (r: string)
    decreases |s|
  {
    if s != [] && s[|s| - 1] == '/' then RStripSlashes(s[..|s| - 1]) else s
  }

  /** os.path.dirname: the text up to the last slash, trailing slashes dropped unless it is all slashes. */
  function Dirname(p: string): string {
    var head := p[..LastIndex(p, '/') + 1];
    if head != [] && exists i :: 0 <= i < |head| && head[i] != '/' then RStripSlashes(head) else head
  }

  /** A name joined under a folder has the folder as its directory and itself as its base name. */
  lemma JoinedUnder(folder: string, name: string)
    requires folder != [] && folder[|folder| - 1] != '/'
    requires name != [] && '/' !in name
    ensures PathJoin(folder, name) == folder + "/" + name
    ensures Dirname(PathJoin(folder, name)) == folder
    ensures Basename(PathJoin(folder, name)) == name
  {
    var p := folder + "/" + name;
    assert name[0] in name;
    forall i | |folder| < i < |p| ensures p[i] != '/' {
      assert p[i] == name[i - |folder| - 1];
    }
    LastIndexAt(p, '/', |folder|);
    var head := p[..|folder| + 1];
    assert head == folder + "/";
    assert head[|folder| - 1] != '/';
    assert head[..|head| - 1] == folder;
    assert RStripSlashes(head) == RStripSlashes(folder) == folder;
    assert Dirname(p) == RStripSlashes(head);
    assert p[|folder| + 1..] == name;
  }

  // ---------------------------------------------------------------------
  // The new name
  // ---------------------------------------------------------------------

  const PhotoExtensions: seq<string> := [".jpg", ".jpeg", ".png", ".heic", ".dng", ".raw"]
  const DocExtensions: seq<string> := [".pdf", ".doc", ".docx", ".txt"]

  /** The folder for a lower-cased extension and a date. */
  function TargetFolder(targetBaseDir: string, ext: string, d: DateTime): string {
    if ext in PhotoExtensions then
      PathJoin(PathJoin(PathJoin(targetBaseDir, "Photos"), YearText(d)), Pad2(d.month) + "-" + MonthName(d.month))
    else if ext in DocExtensions then PathJoin(PathJoin(targetBaseDir, "Documents"), YearText(d))
    else PathJoin(PathJoin(targetBaseDir, "Unsorted"), YearText(d))
  }

  /** A word that names the file: longer than four characters and letters only. */
  predicate IsKeyword(w: string) {
    |w| > 4 && IsAlpha(w)
  }

  /** The keywords among the words, in order, lower-cased. */
  function Keywords(words: seq<string>): (r: seq<string>)
    ensures |r| <= |words|
    ensures forall k :: 0 <= k < |r| ==> IsKeyword(r[k])
    decreases |words|
  {
    if words == [] then []
    else
      var rest := Keywords(words[1..]);
      if IsKeyword(words[0]) then
        LowerKeyword(words[0]);
        [Lower(words[0])] + rest
      else rest
  }

  /** For each word, whether the comprehension keeps it. */
  function KeywordFlags(words: seq<string>): (f: seq<bool>)
    ensures |f| == |words|
  {
    seq(|words|, k requires 0 <= k < |words| => IsKeyword(words[k]))
  }

  /** The positions from i on whose flag is set, ascending. */
  function Positions(flags: seq<bool>, i: nat): (p: seq<nat>)
    requires i <= |flags|
    ensures forall j :: 0 <= j < |p| ==> i <= p[j] < |flags|
    decreases |flags| - i
  {
    if i == |flags| then []
    else (if flags[i] then [i] else []) + Positions(flags, i + 1)
  }

  /** Reference reading of the comprehension: the positions of the keywords, ascending. */
  function KeywordPositions(words: seq<string>): (p: seq<nat>)
    ensures forall j :: 0 <= j < |p| ==> p[j] < |words|
  {
    Positions(KeywordFlags(words), 0)
  }

  /** Each position has its flag set. */
  lemma {:induction false} PositionsFlagged(flags: seq<bool>, i: nat)
    requires i <= |flags|
    ensures forall j :: 0 <= j < |Positions(flags, i)| ==> flags[Positions(flags, i)[j]]
    decreases |flags| - i
  {
    if i < |flags| {
      PositionsFlagged(flags, i + 1);
      var p1 := Positions(flags, i + 1);
      if flags[i] {
        var p := [i] + p1;
        assert Positions(flags, i) == p;
        forall j | 0 <= j < |p| ensures flags[p[j]] {
          if j > 0 { assert p[j] == p1[j - 1]; } else { assert p[j] == i; }
        }
      } else {
        assert Positions(flags, i) == p1;
      }
    }
  }

  /** The positions are strictly ascending. */
  lemma {:induction false} PositionsAscending(flags: seq<bool>, i: nat)
    requires i <= |flags|
    ensures forall j, j' :: 0 <= j < j' < |Positions(flags, i)| ==> Positions(flags, i)[j] < Positions(flags, i)[j']
    decreases |flags| - i
  {
    if i < |flags| {
      PositionsAscending(flags, i + 1);
      var p1 := Positions(flags, i + 1);
      if flags[i] {
        var p := [i] + p1;
        assert Positions(flags, i) == p;
        forall j, j' | 0 <= j < j' < |p| ensures p[j] < p[j'] {
          assert p[j'] == p1[j' - 1];
          if j > 0 { assert p[j] == p1[j - 1]; }
        }
      } else {
        assert Positions(flags, i) == p1;
      }
    }
  }

  /** Every position from i on whose flag is set is among the positions. */
  lemma {:induction false} PositionsComplete(flags: seq<bool>, i: nat)
    requires i <= |flags|
    ensures forall k :: i <= k < |flags| && flags[k] ==> k in Positions(flags, i)
    decreases |flags| - i
  {
    if i < |flags| {
      PositionsComplete(flags, i + 1);
      var p1 := Positions(flags, i + 1);
      if flags[i] {
        assert Positions(flags, i) == [i] + p1;
      } else {
        assert Positions(flags, i) == p1;
      }
    }
  }

  lemma {:induction false} KeywordsFrom(words: seq<string>, i: nat)
    requires i <= |words|
    ensures |Keywords(words[i..])| == |Positions(KeywordFlags(words), i)|
    ensures forall j :: 0 <= j < |Positions(KeywordFlags(words), i)| ==>
              Keywords(words[i..])[j] == Lower(words[Positions(KeywordFlags(words), i)[j]])
    decreases |words| - i
  {
    if i < |words| {
      var flags := KeywordFlags(words);
      var w := words[i];
      var rest := words[i..];
      assert rest[1..] == words[i + 1..];
      assert rest[0] == w;
      assert flags[i] == IsKeyword(w);
      KeywordsFrom(words, i + 1);
      var p1 := Positions(flags, i + 1);
      var r1 := Keywords(words[i + 1..]);
      if IsKeyword(w) {
        var r := [Lower(w)] + r1;
        var p := [i] + p1;
        assert Keywords(rest) == r;
        assert Positions(flags, i) == p;
        forall j | 0 <= j < |p| ensures r[j] == Lower(words[p[j]]) {
          if j > 0 {
            assert r[j] == r1[j - 1] && p[j] == p1[j - 1];
          }
        }
      } else {
        assert Keywords(rest) == r1;
        assert Positions(flags, i) == p1;
      }
    }
  }

  /**
   * The comprehension keeps the words longer than four letters that are all
   * letters, lower-cased, in the order of the description: entry j is the
   * lower-cased word at the j-th keyword position.
   */
  lemma KeywordsSelected(words: seq<string>)
    ensures forall j :: 0 <= j < |KeywordPositions(words)| ==> IsKeyword(words[KeywordPositions(words)[j]])
    ensures forall j, j' :: 0 <= j < j' < |KeywordPositions(words)| ==> KeywordPositions(words)[j] < KeywordPositions(words)[j']
    ensures |Keywords(words)| == |KeywordPositions(words)|
    ensures forall j :: 0 <= j < |KeywordPositions(words)| ==> Keywords(words)[j] == Lower(words[KeywordPositions(words)[j]])
  {
    var flags := KeywordFlags(words);
    var p := KeywordPositions(words);
    assert words[0..] == words;
    KeywordsFrom(words, 0);
    PositionsFlagged(flags, 0);
    PositionsAscending(flags, 0);
    forall j | 0 <= j < |p| ensures IsKeyword(words[p[j]]) {
      assert flags[p[j]];
    }
  }

  /** No keyword is dropped: every qualifying word's position is a keyword position, and its lower-cased form is kept. */
  lemma KeywordsComplete(words: seq<string>)
    ensures forall k :: 0 <= k < |words| && IsKeyword(words[k]) ==>
              k in KeywordPositions(words) && Lower(words[k]) in Keywords(words)
  {
    var flags := KeywordFlags(words);
    var p := KeywordPositions(words);
    assert words[0..] == words;
    KeywordsFrom(words, 0);
    PositionsComplete(flags, 0);
    forall k | 0 <= k < |words| && IsKeyword(words[k]) ensures k in p && Lower(words[k]) in Keywords(words) {
      assert flags[k];
      var j :| 0 <= j < |p| && p[j] == k;
      assert Keywords(words)[j] == Lower(words[k]);
    }
  }

  /** Lower-casing keeps a keyword a keyword. */
  lemma LowerKeyword(w: string)
    requires IsKeyword(w)
    ensures IsKeyword(Lower(w))
  {
  }

  /** words[:3] */
  function FirstThree(words: seq<string>): (r: seq<string>)
    ensures |r| == if |words| < 3 then |words| else 3
    ensures r == words[..|r|]
  {
    if |words| < 3 then words else words[..3]
  }

  /** The descriptive part taken from the description: up to three keywords joined by '_'. */
  function KeywordPart(description: Option<string>): string {
    if description.Some? && description.value != "" then Join("_", FirstThree(Keywords(Words(description.value))))
    else ""
  }

  /** The part of the new name after the date and time: the keywords of the description,
      or the original name without its extension, spaces written as '_'. */
  function DescriptivePart(description: Option<string>, originalFilename: string): string {
    var part := KeywordPart(description);
    if part != "" then part else ReplaceChar(Root(originalFilename), ' ', '_')
  }

  /** YYYY-MM-DD_HHMMSS_<part><ext> */
  function NewFilename(d: DateTime, part: string, ext: string): string {
    DateText(d) + "_" + TimeText(d) + "_" + part + ext
  }

  /** What generate_new_path_and_name returns: the new path and the folder it lies in. */
  datatype Placement = Placement(newFilePath: string, targetFolder: string)

  /**
   * generate_new_path_and_name. targetBaseDir is TARGET_BASE_DIR; ocrText is
   * accepted and not used, as in the source.
   */
  function GenerateNewPathAndName(targetBaseDir: string, originalFilePath: string, description: Option<string>,
                                  ocrText: Option<string>, exifOriginal: Option<string>,
                                  parseExif: string -> Option<DateTime>, mtime: Option<DateTime>,
                                  now: DateTime): Placement
  {
    var fileExtension := Lower(Extension(originalFilePath));
    var originalFilename := Basename(originalFilePath);
    var fileDate := FileDate(exifOriginal, parseExif, mtime, now);
    var targetFolder := TargetFolder(targetBaseDir, fileExtension, fileDate);
    var newFilename := NewFilename(fileDate, DescriptivePart(description, originalFilename), fileExtension);
    Placement(PathJoin(targetFolder, newFilename), targetFolder)
  }

  // ---------------------------------------------------------------------
  // Properties
  // ---------------------------------------------------------------------

  /** A join by '_' is empty exactly when there is nothing to join, given non-empty parts. */
  lemma {:induction false} JoinEmpty(parts: seq<string>)
    requires forall k :: 0 <= k < |parts| ==> parts[k] != []
    ensures Join("_", parts) == [] <==> parts == []
    decreases |parts|
  {
    if |parts| > 1 {
      JoinEmpty(parts[1..]);
    }
  }

  /** A character in none of the parts and not the separator is not in their join. */
  lemma {:induction false} JoinAvoids(sep: string, parts: seq<string>, c: char)
    requires c !in sep
    requires forall k :: 0 <= k < |parts| ==> c !in parts[k]
    ensures c !in Join(sep, parts)
    decreases |parts|
  {
    if |parts| > 1 {
      JoinAvoids(sep, parts[1..], c);
    }
  }

  /** The description decides the name exactly when it has a keyword: then the part is its first
      keywords (at most three), lower-cased and joined by '_'; otherwise the original stem is used. */
  lemma DescriptionOrStem(description: Option<string>, originalFilename: string)
    ensures var ks := if description.Some? then Keywords(Words(description.value)) else [];
            && (ks != [] ==> DescriptivePart(description, originalFilename) == Join("_", FirstThree(ks)))
            && (ks == [] ==> DescriptivePart(description, originalFilename) ==
                               ReplaceChar(Root(originalFilename), ' ', '_'))
  {
    if description.Some? {
      var ks := Keywords(Words(description.value));
      if description.value == "" {
        assert Words(description.value) == [];
      }
      var firsts := FirstThree(ks);
      JoinEmpty(firsts);
    }
  }

  /** The part of the new name holds no slash, whichever source it comes from. */
  lemma PartHasNoSlash(description: Option<string>, originalFilename: string)
    requires '/' !in originalFilename
    ensures '/' !in DescriptivePart(description, originalFilename)
  {
    if description.Some? && description.value != "" {
      var firsts := FirstThree(Keywords(Words(description.value)));
      forall k | 0 <= k < |firsts| ensures '/' !in firsts[k] {
        assert IsKeyword(firsts[k]);
        assert forall i :: 0 <= i < |firsts[k]| ==> firsts[k][i] != '/';
      }
      JoinAvoids("_", firsts, '/');
    }
    var stem := Root(originalFilename);
    assert forall i :: 0 <= i < |stem| ==> stem[i] == originalFilename[i];
  }

  lemma {:induction false} NatToStringHasNoSlash(n: nat)
    ensures '/' !in NatToString(n) && NatToString(n) != []
    decreases n
  {
    if n >= 10 {
      NatToStringHasNoSlash(n / 10);
    }
  }

  /** The new file name: nothing but digits and separators before the part, no slash anywhere,
      and the lower-cased extension at the end. */
  lemma NewFilenameShape(d: DateTime, part: string, ext: string)
    requires '/' !in part && '/' !in ext
    ensures var name := NewFilename(d, part, ext);
            name != [] && '/' !in name && name[0] != '.'
  {
    NatToStringHasNoSlash(d.year);
    NatToStringHasNoSlash(d.month);
    NatToStringHasNoSlash(d.day);
    NatToStringHasNoSlash(d.hour);
    NatToStringHasNoSlash(d.minute);
    NatToStringHasNoSlash(d.second);
    NatToStringDigits(d.year);
    var name := NewFilename(d, part, ext);
    assert name[0] == NatToString(d.year)[0];
  }

  lemma LowerKeepsSlashAndDot(s: string)
    ensures |Lower(s)| == |s|
    ensures forall i :: 0 <= i < |s| ==> (Lower(s)[i] == '/' <==> s[i] == '/') && (Lower(s)[i] == '.' <==> s[i] == '.')
  {
  }

  /** The folder ends in a component of its own, never in a slash. */
  lemma FolderEndsInComponent(targetBaseDir: string, ext: string, d: DateTime)
    ensures var f := TargetFolder(targetBaseDir, ext, d);
            f != [] && f[|f| - 1] != '/'
  {
    NatToStringHasNoSlash(d.year);
    NatToStringDigits(d.year);
    var y := YearText(d);
    assert y[|y| - 1] in y;
    JoinEndsInLast(PathJoin(targetBaseDir, "Photos"), y);
    JoinEndsInLast(PathJoin(targetBaseDir, "Documents"), y);
    JoinEndsInLast(PathJoin(targetBaseDir, "Unsorted"), y);
    var name := MonthName(d.month);
    MonthNameEnds(d.month);
    var m := Pad2(d.month) + "-" + name;
    assert m[|m| - 1] == name[|name| - 1];
    JoinEndsInLast(PathJoin(PathJoin(targetBaseDir, "Photos"), y), m);
  }

  /** Every month name is non-empty and does not end in a slash. */
  lemma MonthNameEnds(month: Month)
    ensures MonthName(month) != [] && MonthName(month)[|MonthName(month)| - 1] != '/'
  {
    var k := month - 1;
    assert MonthNames[k] == MonthName(month);
    assert k == 0 || k == 1 || k == 2 || k == 3 || k == 4 || k == 5 || k == 6 || k == 7 || k == 8 || k == 9 || k == 10 || k == 11;
  }

  /** Joining a component that does not end in a slash gives a path that does not either. */
  lemma JoinEndsInLast(a: string, b: string)
    requires b != [] && b[|b| - 1] != '/'
    ensures var p := PathJoin(a, b); p != [] && p[|p| - 1] == b[|b| - 1]
  {
  }

  /**
   * The returned path is the folder joined with YYYY-MM-DD_HHMMSS_<part><ext>:
   * the folder is the path's directory and the file name its base name, and a
   * file that had an extension keeps it, lower-cased. (A file without one, such
   * as ".profile", may gain one: its stem becomes the end of the new name.)
   */
  lemma PathInFolder(targetBaseDir: string, originalFilePath: string, description: Option<string>,
                     ocrText: Option<string>, exifOriginal: Option<string>,
                     parseExif: string -> Option<DateTime>, mtime: Option<DateTime>, now: DateTime)
    ensures var r := GenerateNewPathAndName(targetBaseDir, originalFilePath, description, ocrText,
                                            exifOriginal, parseExif, mtime, now);
            var d := FileDate(exifOriginal, parseExif, mtime, now);
            var ext := Lower(Extension(originalFilePath));
            var name := NewFilename(d, DescriptivePart(description, Basename(originalFilePath)), ext);
            && r.targetFolder == TargetFolder(targetBaseDir, ext, d)
            && Dirname(r.newFilePath) == r.targetFolder
            && Basename(r.newFilePath) == name
            && r.newFilePath == r.targetFolder + "/" + name
            && (ext != [] ==> Extension(name) == ext)
  {
    var d := FileDate(exifOriginal, parseExif, mtime, now);
    var ext := Lower(Extension(originalFilePath));
    LoweredExtension(originalFilePath);
    var part := DescriptivePart(description, Basename(originalFilePath));
    PartHasNoSlash(description, Basename(originalFilePath));
    NewFilenameShape(d, part, ext);
    var name := NewFilename(d, part, ext);
    FolderEndsInComponent(targetBaseDir, ext, d);
    JoinedUnder(TargetFolder(targetBaseDir, ext, d), name);
    if ext != [] {
      FilenameKeepsExtension(d, part, ext);
    }
  }

  /** The lower-cased extension is still empty or a dot followed by neither dot nor slash. */
  lemma LoweredExtension(p: string)
    ensures var ext := Lower(Extension(p));
            '/' !in ext && (ext == [] || (ext[0] == '.' && '.' !in ext[1..]))
  {
    var raw := Extension(p);
    var ext := Lower(raw);
    LowerKeepsSlashAndDot(raw);
    forall i | 0 <= i < |ext| ensures ext[i] != '/' && (i > 0 ==> ext[i] != '.') {
      assert raw[i] != '/';
      if i > 0 { assert raw[i] == raw[1..][i - 1]; }
    }
    if ext != [] {
      forall i | 0 <= i < |ext| - 1 ensures ext[1..][i] != '.' {
        assert ext[1..][i] == ext[i + 1];
      }
    }
  }

  /** The new name has the extension it was given. */
  lemma FilenameKeepsExtension(d: DateTime, part: string, ext: string)
    requires '/' !in part && '/' !in ext
    requires ext != [] && ext[0] == '.' && '.' !in ext[1..]
    ensures Extension(NewFilename(d, part, ext)) == ext
  {
    var name := NewFilename(d, part, ext);
    NewFilenameShape(d, part, ext);
    var stem := DateText(d) + "_" + TimeText(d) + "_" + part;
    assert name == stem + ext;
    assert stem != [] && stem[0] == name[0];
    assert '/' !in stem by {
      forall i | 0 <= i < |stem| ensures stem[i] != '/' {
        assert stem[i] == name[i];
      }
    }
    ExtensionOfSuffix(stem, ext);
  }

  /**
   * For any base directory the folders are <base joined with Photos>/YYYY/MM-MonthName,
   * <base joined with Documents>/YYYY and <base joined with Unsorted>/YYYY; with a base
   * that does not end in a slash they read <base>/Photos/..., and so on.
   */
  lemma FolderByExtension(targetBaseDir: string, ext: string, d: DateTime)
    ensures ext in PhotoExtensions ==>
              TargetFolder(targetBaseDir, ext, d) ==
                PathJoin(targetBaseDir, "Photos") + "/" + YearText(d) + "/" + Pad2(d.month) + "-" + MonthName(d.month)
    ensures ext !in PhotoExtensions && ext in DocExtensions ==>
              TargetFolder(targetBaseDir, ext, d) == PathJoin(targetBaseDir, "Documents") + "/" + YearText(d)
    ensures ext !in PhotoExtensions && ext !in DocExtensions ==>
              TargetFolder(targetBaseDir, ext, d) == PathJoin(targetBaseDir, "Unsorted") + "/" + YearText(d)
    ensures targetBaseDir != [] && targetBaseDir[|targetBaseDir| - 1] != '/' ==>
              && PathJoin(targetBaseDir, "Photos") == targetBaseDir + "/Photos"
              && PathJoin(targetBaseDir, "Documents") == targetBaseDir + "/Documents"
              && PathJoin(targetBaseDir, "Unsorted") == targetBaseDir + "/Unsorted"
  {
    var y := YearText(d);
    var m := Pad2(d.month) + "-" + MonthName(d.month);
    if ext in PhotoExtensions {
      assert TargetFolder(targetBaseDir, ext, d) == PathJoin(PathJoin(PathJoin(targetBaseDir, "Photos"), y), m);
      PhotoFolder(targetBaseDir, d);
    } else if ext in DocExtensions {
      assert TargetFolder(targetBaseDir, ext, d) == PathJoin(PathJoin(targetBaseDir, "Documents"), y);
      YearFolder(targetBaseDir, "Documents", d);
    } else {
      assert TargetFolder(targetBaseDir, ext, d) == PathJoin(PathJoin(targetBaseDir, "Unsorted"), y);
      YearFolder(targetBaseDir, "Unsorted", d);
    }
    if targetBaseDir != [] && targetBaseDir[|targetBaseDir| - 1] != '/' {
      JoinPlain(targetBaseDir, "Photos");
      JoinPlain(targetBaseDir, "Documents");
      JoinPlain(targetBaseDir, "Unsorted");
    }
  }

  /** The year folder under a named folder of the base directory. */
  lemma YearFolder(targetBaseDir: string, folder: string, d: DateTime)
    requires folder != [] && folder[|folder| - 1] != '/'
    ensures PathJoin(PathJoin(targetBaseDir, folder), YearText(d)) == PathJoin(targetBaseDir, folder) + "/" + YearText(d)
  {
    var y := YearText(d);
    NatToStringHasNoSlash(d.year);
    assert y[0] in y;
    JoinEndsInLast(targetBaseDir, folder);
    JoinPlain(PathJoin(targetBaseDir, folder), y);
  }

  /** The month folder under the photo year folder. */
  lemma PhotoFolder(targetBaseDir: string, d: DateTime)
    ensures PathJoin(PathJoin(PathJoin(targetBaseDir, "Photos"), YearText(d)), Pad2(d.month) + "-" + MonthName(d.month)) ==
              PathJoin(targetBaseDir, "Photos") + "/" + YearText(d) + "/" + Pad2(d.month) + "-" + MonthName(d.month)
  {
    var y := YearText(d);
    var p1 := PathJoin(targetBaseDir, "Photos");
    var m := Pad2(d.month) + "-" + MonthName(d.month);
    YearFolder(targetBaseDir, "Photos", d);
    NatToStringHasNoSlash(d.year);
    assert y[|y| - 1] in y;
    assert m[0] != '/' by { NatToStringDigits(d.month); }
    JoinEndsInLast(p1, y);
    JoinPlain(p1 + "/" + y, m);
  }

  /** Joining two components, neither holding a slash at the seam, puts one slash between them. */
  lemma JoinPlain(a: string, b: string)
    requires a != [] && a[|a| - 1] != '/'
    requires b != [] && b[0] != '/'
    ensures PathJoin(a, b) == a + "/" + b
  {
    assert b[..1][0] == b[0];
  }

  /** The OCR text never affects the placement. */
  lemma OcrTextIgnored(targetBaseDir: string, originalFilePath: string, description: Option<string>,
                       ocr1: Option<string>, ocr2: Option<string>, exifOriginal: Option<string>,
                       parseExif: string -> Option<DateTime>, mtime: Option<DateTime>, now: DateTime)
    ensures GenerateNewPathAndName(targetBaseDir, originalFilePath, description, ocr1, exifOriginal, parseExif, mtime, now)
            == GenerateNewPathAndName(targetBaseDir, originalFilePath, description, ocr2, exifOriginal, parseExif, mtime, now)
  {
  }
}
