/** Loading the class table (annotation.py:262-283): from the `names` entry of
  * a YAML file, as a list or as a dictionary read in key order, or from the
  * non-blank lines of a text file. */
module ClassTable {
  import opened Wrappers
  import opened Text
  import opened LabelPaths

  /** The value of a YAML `names` entry, already parsed. */
  datatype NamesValue =
    | NamesList(items: seq<string>)
    | NamesDict(entries: map<int, string>)
    | NamesOther

  /** A parsed YAML document: empty (`None`), or a mapping that may have `names`. */
  datatype YamlDoc = YamlEmpty | YamlMapping(names: Option<NamesValue>)

  /** A class file as the loader meets it: unreadable, or its lines together with
    * what a YAML parser makes of them (`None` when the parser raises). */
  datatype ClassFile = Unreadable | Readable(lines: seq<string>, yaml: Option<YamlDoc>)

  /** ASCII lower-casing, enough to compare a suffix with `.yaml` and `.yml`. */
  function LowerAscii(s: string): (r: string)
    ensures |r| == |s|
    ensures forall i :: 0 <= i < |s| ==> ('A' <= s[i] <= 'Z' ==> r[i] as int == s[i] as int + 32)
    ensures forall i :: 0 <= i < |s| ==> !('A' <= s[i] <= 'Z') ==> r[i] == s[i]
  {
    if s == [] then []
    else [if 'A' <= s[0] <= 'Z' then (s[0] as int + 32) as char else s[0]] + LowerAscii(s[1..])
  }

  /** `Path(file_path).suffix.lower() in ['.yaml', '.yml']`. */
  predicate IsYamlName(name: string)
  {
    LowerAscii(Suffix(name)) in {".yaml", ".yml"}
  }

  predicate StrictlyIncreasing(s: seq<int>)
  {
    forall i, j :: 0 <= i < j < |s| ==> s[i] < s[j]
  }

  lemma HasElement(s: set<int>)
    requires s != {}
    ensures exists x :: x in s
  {
    if forall x :: x !in s {
      assert false;
    }
  }

  lemma {:induction false} MinimumExists(s: set<int>)
    requires s != {}
    ensures exists k :: k in s && forall j :: j in s ==> k <= j
    decreases |s|
  {
    HasElement(s);
    var x :| x in s;
    if s == {x} {
      assert forall j :: j in s ==> x <= j;
    } else {
      MinimumExists(s - {x});
      var k :| k in s - {x} && forall j :: j in s - {x} ==> k <= j;
      var least := if x < k then x else k;
      forall j | j in s ensures least <= j {
        if j != x {
          assert j in s - {x};
        }
      }
      assert least in s;
    }
  }

  /** The least element of a non-empty set of keys. */
  function MinKey(s: set<int>): (k: int)
    requires s != {}
    ensures k in s && forall j :: j in s ==> k <= j
  {
    MinimumExists(s);
    var k :| k in s && forall j :: j in s ==> k <= j;
    k
  }

  /** `sorted(s)`: the elements of `s` in increasing order. */
  function Sorted(s: set<int>): (r: seq<int>)
    ensures |r| == |s|
    ensures StrictlyIncreasing(r)
    ensures forall k :: k in s <==> k in r
    decreases |s|
  {
    if s == {} then []
    else
      var k := MinKey(s);
      var tail := Sorted(s - {k});
      assert forall i :: 0 <= i < |tail| ==> k < tail[i] by {
        forall i | 0 <= i < |tail| ensures k < tail[i] {
          assert tail[i] in s - {k};
        }
      }
      [k] + tail
  }

  /** `sorted(names.keys())`. */
  function SortedKeys(m: map<int, string>): (r: seq<int>)
    ensures |r| == |m|
    ensures StrictlyIncreasing(r)
    ensures forall k :: k in m <==> k in r
  {
    Sorted(m.Keys)
  }

  /** `[str(names[k]) for k in sorted(names.keys())]`. */
  function ValuesInKeyOrder(m: map<int, string>): (r: seq<string>)
    ensures |r| == |m|
    ensures forall i :: 0 <= i < |r| ==> r[i] == m[SortedKeys(m)[i]]
  {
    var keys := SortedKeys(m);
    seq(|keys|, i requires 0 <= i < |keys| => m[keys[i]])
  }

  /** `[line.strip() for line in f if line.strip()]`. */
  function NonBlankStripped(lines: seq<string>): (r: seq<string>)
    ensures |r| <= |lines|
    ensures forall i :: 0 <= i < |r| ==> r[i] != [] && !IsSpace(r[i][0]) && !IsSpace(r[i][|r[i]| - 1])
  {
    if lines == [] then []
    else
      var t := Strip(lines[0]);
      (if t == [] then [] else [t]) + NonBlankStripped(lines[1..])
  }

  /** The class list after `load_classes(name)`: `None` when the load raises
    * (nothing changes and an error is shown), else the new list, which is the
    * old one when a YAML file has no usable `names`. */
  function LoadClasses(name: string, f: ClassFile, previous: seq<string>): (r: Option<seq<string>>)
    ensures f.Unreadable? ==> r.None?
    ensures f.Readable? && IsYamlName(name) ==>
      (r.None? <==> f.yaml.None? || f.yaml.value.YamlEmpty?)
    ensures f.Readable? && !IsYamlName(name) ==> r == Some(NonBlankStripped(f.lines))
    ensures r.Some? && IsYamlName(name) ==>
      match f.yaml.value.names
      case Some(NamesList(items)) => r.value == items
      case Some(NamesDict(m)) => r.value == ValuesInKeyOrder(m)
      case _ => r.value == previous
  {
    match f
    case Unreadable => None
    case Readable(lines, yaml) =>
      if IsYamlName(name) then
        match yaml
        case None => None
        case Some(YamlEmpty) => None
        case Some(YamlMapping(names)) =>
          match names
          case Some(NamesList(items)) => Some(items)
          case Some(NamesDict(m)) => Some(ValuesInKeyOrder(m))
          case _ => Some(previous)
      else Some(NonBlankStripped(lines))
  }

  /** A dictionary whose keys are `0 .. n-1` is read as a list in key order:
    * `names: {0: a, 1: b}` and `names: [a, b]` give the same table. */
  lemma DenseDictIsList(m: map<int, string>)
    requires forall k :: k in m ==> 0 <= k < |m|
    ensures SortedKeys(m) == seq(|m|, i => i)
    ensures forall i :: 0 <= i < |m| ==> i in m && ValuesInKeyOrder(m)[i] == m[i]
  {
    var r := SortedKeys(m);
    forall k | 0 <= k < |r| ensures 0 <= r[k] < |r| {
      assert r[k] in r;
    }
    forall i | 0 <= i < |m| ensures r[i] == i {
      SortedRangeAt(r, i);
    }
    forall i | 0 <= i < |m| ensures i in m && ValuesInKeyOrder(m)[i] == m[i] {
      assert r[i] == i && r[i] in r;
    }
  }

  /** A strictly increasing sequence of `n` integers in `0 .. n-1` is the identity. */
  lemma SortedRangeAt(r: seq<int>, i: nat)
    requires StrictlyIncreasing(r)
    requires forall k :: 0 <= k < |r| ==> 0 <= r[k] < |r|
    requires i < |r|
    ensures r[i] == i
  {
    GapBound(r, 0, i);
    GapBound(r, i, |r| - 1);
  }

  lemma {:induction false} GapBound(r: seq<int>, i: nat, j: nat)
    requires StrictlyIncreasing(r) && i <= j < |r|
    ensures r[j] - r[i] >= j - i
    decreases j - i
  {
    if i < j {
      GapBound(r, i + 1, j);
    }
  }

  /** A text file holding one stripped name per line reads back as those names. */
  lemma {:induction false} TextTableRoundTrip(names: seq<string>)
    requires forall i :: 0 <= i < |names| ==> names[i] != [] && !IsSpace(names[i][0]) && !IsSpace(names[i][|names[i]| - 1])
    ensures NonBlankStripped(names) == names
  {
    if names != [] {
      StripStripped(names[0]);
      TextTableRoundTrip(names[1..]);
    }
  }

  lemma StripStripped(s: string)
    requires s != [] && !IsSpace(s[0]) && !IsSpace(s[|s| - 1])
    ensures Strip(s) == s
  {
    assert s[0..] == s;
    assert s[..|s| - 0] == s;
  }
}
