/** Where an image's label file lives: the sibling `.txt`, or the same relative
  * path under the last `images` directory rewritten to `labels`
  * (annotation.py:297-308 for the dataset scan, annotation.py:728-744 for saving). */
module LabelPaths {
  import opened Wrappers

  /** A path as `pathlib` splits it: the sequence `Path.parts`, its name last. */
  type Path = seq<string>

  predicate IsFilePath(p: Path)
  {
    |p| > 0 && p[|p| - 1] != ""
  }

  function Name(p: Path): string
    requires |p| > 0
  {
    p[|p| - 1]
  }

  /** `Path.parent`: the parts before the name. */
  function Parent(p: Path): Path
    requires |p| > 0
  {
    p[..|p| - 1]
  }

  /** `name.rfind('.')`, as an index when there is a dot. */
  function LastDot(name: string): (r: Option<nat>)
    ensures r.Some? ==> r.value < |name| && name[r.value] == '.' && '.' !in name[r.value + 1..]
    ensures r.None? <==> '.' !in name
  {
    if name == [] then None
    else if name[|name| - 1] == '.' then Some(|name| - 1)
    else
      var r := LastDot(name[..|name| - 1]);
      assert name == name[..|name| - 1] + [name[|name| - 1]];
      r
  }

  /** The stem of a name: the name without its suffix, where the suffix is the
    * part from the last dot, when that dot is neither first nor last. */
  function Stem(name: string): (s: string)
    ensures |s| <= |name| && s == name[..|s|]
  {
    match LastDot(name)
    case Some(i) => if 0 < i < |name| - 1 then name[..i] else name
    case None => name
  }

  /** `PurePath.suffix` of a name: from the last dot on, when that dot is
    * neither first nor last; otherwise empty. Stem and suffix make up the name. */
  function Suffix(name: string): (x: string)
    ensures Stem(name) + x == name
    ensures x != [] ==> x[0] == '.' && '.' !in x[1..]
  {
    match LastDot(name)
    case Some(i) =>
      if 0 < i < |name| - 1 then
        assert name[..i] + name[i..] == name;
        assert name[i..][1..] == name[i + 1..];
        name[i..]
      else []
    case None => []
  }

  /** `PurePath.with_suffix(ext)` on a name. */
  function WithSuffix(name: string, ext: string): string
  {
    Stem(name) + ext
  }

  /** `p.with_suffix('.txt')`. */
  function WithTxt(p: Path): (q: Path)
    requires IsFilePath(p)
    ensures IsFilePath(q) && |q| == |p| && Parent(q) == Parent(p)
  {
    Parent(p) + [WithSuffix(Name(p), ".txt")]
  }

  /** `len(parts) - 1 - parts[::-1].index(seg)`: the last position of `seg`. */
  function LastIndex(p: Path, seg: string): (r: Option<nat>)
    ensures r.None? <==> seg !in p
    ensures r.Some? ==> r.value < |p| && p[r.value] == seg && seg !in p[r.value + 1..]
  {
    if p == [] then None
    else if p[|p| - 1] == seg then Some(|p| - 1)
    else
      assert p == p[..|p| - 1] + [p[|p| - 1]];
      LastIndex(p[..|p| - 1], seg)
  }

  /** The mirrored label path: the last `images` part becomes `labels` and the
    * suffix becomes `.txt`; absent when no part is `images`. */
  function MirrorPath(p: Path): (r: Option<Path>)
    requires IsFilePath(p)
    ensures r.Some? <==> "images" in p
    ensures r.Some? ==> IsFilePath(r.value) && |r.value| == |p|
  {
    match LastIndex(p, "images")
    case Some(i) =>
      var q := p[i := "labels"];
      Some(WithTxt(q))
    case None => None
  }

  /** The dataset scan's label lookup: the sibling `.txt` when it exists, else
    * the mirrored path when that exists, else none. */
  function ScanLabelPath(img: Path, files: set<Path>): (r: Option<Path>)
    requires IsFilePath(img)
    ensures r.Some? ==> r.value in files
    ensures r.Some? ==> r.value == WithTxt(img) || Some(r.value) == MirrorPath(img)
    ensures WithTxt(img) in files ==> r == Some(WithTxt(img))
    ensures r.None? <==> WithTxt(img) !in files && (MirrorPath(img).None? || MirrorPath(img).value !in files)
    ensures r.Some? ==> IsFilePath(r.value)
  {
    if WithTxt(img) in files then Some(WithTxt(img))
    else match MirrorPath(img)
      case Some(q) => if q in files then Some(q) else None
      case None => None
  }

  /** The save destination: the label path recorded for the row when there is
    * one, else the mirrored path when its directory exists, else the sibling `.txt`. */
  function SaveLabelPath(img: Path, recorded: Option<Path>, dirs: set<Path>): (r: Path)
    requires IsFilePath(img)
    ensures recorded.Some? ==> r == recorded.value
    ensures recorded.None? ==> r == WithTxt(img) || (Some(r) == MirrorPath(img) && Parent(r) in dirs)
    ensures recorded.None? && MirrorPath(img).Some? && Parent(MirrorPath(img).value) in dirs
            ==> Some(r) == MirrorPath(img)
  {
    if recorded.Some? then recorded.value
    else match MirrorPath(img)
      case Some(q) => if Parent(q) in dirs then q else WithTxt(img)
      case None => WithTxt(img)
  }

  /** A name given the `.txt` suffix ends in `.txt`, and giving it again changes nothing. */
  lemma WithTxtIdempotent(name: string)
    requires name != ""
    ensures var t := WithSuffix(name, ".txt");
      |t| >= 4 && t[|t| - 4..] == ".txt" && WithSuffix(t, ".txt") == t
  {
    var s := Stem(name);
    assert s != "" by {
      match LastDot(name)
      case Some(i) =>
      case None =>
    }
    var t := s + ".txt";
    assert t[|t| - 4..] == ".txt";
    assert LastDot(t) == Some(|s|) by {
      assert t[|s| + 1..] == "txt";
      assert t[|s|] == '.';
    }
    assert Stem(t) == s;
  }

  /** The mirrored path keeps every directory part except the last `images`,
    * which reads `labels`, and keeps the name's stem with a `.txt` suffix. */
  lemma MirrorPathShape(p: Path)
    requires IsFilePath(p) && "images" in p
    ensures var i := LastIndex(p, "images").value;
      var q := MirrorPath(p).value;
      |q| == |p|
      && (i < |p| - 1 ==> q[i] == "labels" && Name(q) == WithSuffix(Name(p), ".txt"))
      && (i == |p| - 1 ==> Name(q) == "labels.txt")
      && (forall j :: 0 <= j < |p| - 1 && j != i ==> q[j] == p[j])
  {
  }

  /** Saving an image that had no label file and then scanning again finds the
    * file just written: the save destination and the scan lookup agree. */
  lemma ScanFindsSaved(img: Path, files: set<Path>, dirs: set<Path>)
    requires IsFilePath(img)
    requires ScanLabelPath(img, files).None?
    ensures var saved := SaveLabelPath(img, None, dirs);
      ScanLabelPath(img, files + {saved}) == Some(saved)
  {
  }
}
