/** The file names `saveImage` writes: capture path, optional folder, capture
    name, the running capture index, the printer position and the image
    format. */
module Persistence {
  import opened PyValues

  /** The printer position recorded when an image is captured. */
  datatype Position = Position(x: int, y: int, z: int)

  /** What the file system lets `saveImage` do: create a directory (with
      its parents) and write an encoded image under a name. */
  datatype FileSystem = FileSystem(canCreate: string -> bool, canWrite: string -> bool)

  /** A non-empty folder name gets a trailing "/". */
  function FolderPart(folder: string): (p: string)
    ensures folder == "" ==> p == ""
    ensures folder != "" ==> |p| == |folder| + 1 && p[..|folder|] == folder && p[|folder|] == '/'
  {
    if folder != "" then folder + "/" else folder
  }

  /** The directory `saveImage` creates before writing. */
  function Directory(capturePath: string, folder: string): string {
    capturePath + FolderPart(folder)
  }

  /** The part of a name after the capture index:
      "PX<x>Y<y>Z<z>.<format>", grouped from the right. */
  function PositionSuffix(pos: Position, format: string): string {
    "PX" + (IntToString(pos.x) + ("Y" + (IntToString(pos.y) + ("Z" + (IntToString(pos.z) + ("." + format))))))
  }

  /** The name of the image; the string concatenation raises TypeError when
      the configured format is not a string. */
  function FileName(capturePath: string, folder: string, captureName: string,
                    index: int, pos: Position, format: Value): (r: Result<string>)
    ensures r.Err? <==> !format.VStr?
    ensures r.Err? ==> r.error == TypeError
  {
    match format
    case VStr(f) =>
      Ok(Directory(capturePath, folder) + (captureName + (IntToString(index) + PositionSuffix(pos, f))))
    case _ => Err(TypeError)
  }

  predicate Lacks(s: string, c: char) {
    forall i :: 0 <= i < |s| ==> s[i] != c
  }

  /** The decimal form of an integer has only digits and a sign. */
  lemma IntToStringChars(n: int)
    ensures forall i :: 0 <= i < |IntToString(n)| ==>
      IsDigit(IntToString(n)[i]) || IntToString(n)[i] == '-'
  {
    if n < 0 {
      var d := NatToString(-n);
      assert IntToString(n) == "-" + d;
      assert forall i :: 1 <= i < |"-" + d| ==> ("-" + d)[i] == d[i - 1];
    }
  }

  lemma IntToStringLacks(n: int, c: char)
    requires !IsDigit(c) && c != '-'
    ensures Lacks(IntToString(n), c)
  {
    IntToStringChars(n);
  }

  /** A separator that occurs in neither part splits a string uniquely. */
  lemma SplitUnique(u: string, x: string, v: string, y: string, c: char)
    requires Lacks(u, c) && Lacks(v, c)
    requires u + ([c] + x) == v + ([c] + y)
    ensures u == v && x == y
  {
    var s := u + ([c] + x);
    assert s[|u|] == c;
    assert (v + ([c] + y))[|v|] == c;
    assert forall i :: 0 <= i < |u| ==> s[i] == u[i];
    assert forall i :: 0 <= i < |v| ==> s[i] == v[i];
    assert |u| == |v|;
    assert u == s[..|u|] && v == s[..|v|];
    assert x == s[|u| + 1..] && y == s[|v| + 1..];
  }

  /** An integer ended by a separator, followed by the rest of a string. */
  lemma FieldUnique(a: int, u: string, b: int, v: string, c: char)
    requires !IsDigit(c) && c != '-'
    requires IntToString(a) + ([c] + u) == IntToString(b) + ([c] + v)
    ensures a == b && u == v
  {
    IntToStringLacks(a, c);
    IntToStringLacks(b, c);
    SplitUnique(IntToString(a), u, IntToString(b), v, c);
    ParseIntRoundTrip(a);
    ParseIntRoundTrip(b);
  }

  lemma PrefixCancel(pre: string, a: string, b: string)
    requires pre + a == pre + b
    ensures a == b
  {
    assert a == (pre + a)[|pre|..];
    assert b == (pre + b)[|pre|..];
  }

  /** "PX<x>Y<y>Z<z>.<format>" determines the coordinates and the format. */
  lemma SuffixUnique(a: Position, f: string, b: Position, g: string)
    requires PositionSuffix(a, f) == PositionSuffix(b, g)
    ensures a == b && f == g
  {
    var za, zb := IntToString(a.z) + ("." + f), IntToString(b.z) + ("." + g);
    var ya, yb := IntToString(a.y) + ("Z" + za), IntToString(b.y) + ("Z" + zb);
    PrefixCancel("PX", IntToString(a.x) + ("Y" + ya), IntToString(b.x) + ("Y" + yb));
    FieldUnique(a.x, ya, b.x, yb, 'Y');
    FieldUnique(a.y, za, b.y, zb, 'Z');
    FieldUnique(a.z, f, b.z, g, '.');
  }

  /** The capture index ends where the "PX" marker begins. */
  lemma IndexUnique(i: int, p: Position, f: string, j: int, q: Position, g: string)
    requires IntToString(i) + PositionSuffix(p, f) == IntToString(j) + PositionSuffix(q, g)
    ensures i == j && p == q && f == g
  {
    var si, sj := IntToString(i), IntToString(j);
    var ti, tj := PositionSuffix(p, f), PositionSuffix(q, g);
    IntToStringLacks(i, 'P');
    IntToStringLacks(j, 'P');
    assert ti == ['P'] + ti[1..];
    assert tj == ['P'] + tj[1..];
    SplitUnique(si, ti[1..], sj, tj[1..], 'P');
    ParseIntRoundTrip(i);
    ParseIntRoundTrip(j);
    SuffixUnique(p, f, q, g);
  }

  /** Under one capture path, folder and capture name, a file name
      determines the capture index, the position and the format: images
      saved with different indices never overwrite each other. */
  lemma FileNameInjective(capturePath: string, folder: string, captureName: string,
                          i: int, p: Position, f: Value, j: int, q: Position, g: Value)
    requires FileName(capturePath, folder, captureName, i, p, f).Ok?
    requires FileName(capturePath, folder, captureName, i, p, f)
      == FileName(capturePath, folder, captureName, j, q, g)
    ensures i == j && p == q && f == g
  {
    var dir := Directory(capturePath, folder);
    var si, sj := IntToString(i), IntToString(j);
    var ti, tj := PositionSuffix(p, f.s), PositionSuffix(q, g.s);
    PrefixCancel(dir, captureName + (si + ti), captureName + (sj + tj));
    PrefixCancel(captureName, si + ti, sj + tj);
    IndexUnique(i, p, f.s, j, q, g.s);
  }

  predicate EndsWith(s: string, e: string) {
    |s| >= |e| && s[|s| - |e|..] == e
  }

  lemma EndsWithPrepend(p: string, t: string, e: string)
    requires EndsWith(t, e)
    ensures EndsWith(p + t, e)
  {
    assert (p + t)[|p + t| - |e|..] == t[|t| - |e|..];
  }

  /** A position suffix ends in "." and the format. */
  lemma SuffixEndsWithFormat(pos: Position, f: string)
    ensures EndsWith(PositionSuffix(pos, f), "." + f)
  {
    var ext := "." + f;
    assert EndsWith(ext, ext);
    EndsWithPrepend(IntToString(pos.z), ext, ext);
    var z := IntToString(pos.z) + ext;
    EndsWithPrepend("Z", z, ext);
    EndsWithPrepend(IntToString(pos.y), "Z" + z, ext);
    var y := IntToString(pos.y) + ("Z" + z);
    EndsWithPrepend("Y", y, ext);
    EndsWithPrepend(IntToString(pos.x), "Y" + y, ext);
    EndsWithPrepend("PX", IntToString(pos.x) + ("Y" + y), ext);
  }

  /** Every name lies in the directory `saveImage` creates, continues with
      the capture name and ends in the configured format. */
  lemma FileNameShape(capturePath: string, folder: string, captureName: string,
                      index: int, pos: Position, format: Value)
    requires format.VStr?
    ensures var name := FileName(capturePath, folder, captureName, index, pos, format).value;
      var dir := Directory(capturePath, folder);
      var ext := "." + format.s;
      |name| >= |dir| + |captureName| + |ext| && name[..|dir|] == dir
        && name[|dir|..|dir| + |captureName|] == captureName && name[|name| - |ext|..] == ext
  {
    var dir := Directory(capturePath, folder);
    var ext := "." + format.s;
    var suffix := PositionSuffix(pos, format.s);
    var rest := captureName + (IntToString(index) + suffix);
    var name := dir + rest;
    SuffixEndsWithFormat(pos, format.s);
    EndsWithPrepend(IntToString(index), suffix, ext);
    EndsWithPrepend(captureName, IntToString(index) + suffix, ext);
    EndsWithPrepend(dir, rest, ext);
    assert |suffix| >= |ext|;
    assert name[..|dir|] == dir;
    assert name[|dir|..] == rest;
    assert rest[..|captureName|] == captureName;
  }
}
