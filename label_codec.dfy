/** The YOLO label-line format `cid xc yc w h`: decoding a line into an integer
  * pixel box (annotation.py:413-432) and encoding a box back into the five
  * normalised fields (annotation.py:749-753). */
module LabelCodec {
  import opened Wrappers
  import opened Numeric
  import opened Text

  /** One annotation box, in image pixels. */
  datatype Box = Box(classId: int, className: string, x1: int, y1: int, x2: int, y2: int)

  /** The five fields of a label line, already parsed. */
  datatype LabelFields = LabelFields(cid: int, xc: real, yc: real, w: real, h: real)

  /** What reading one line does: skip it, raise (ending the read), or add a box. */
  datatype LineResult = Skipped | Raised | Decoded(box: Box)

  /** `classes[cid] if cid < len(classes) else str(cid)`. A negative id indexes
    * from the end of the table; one below `-len(classes)` raises `IndexError`. */
  function ClassName(cid: int, classes: seq<string>): (r: Option<string>)
    ensures r.None? <==> cid < -|classes|
    ensures 0 <= cid < |classes| ==> r == Some(classes[cid])
    ensures |classes| <= cid ==> r == Some(IntToString(cid))
  {
    if cid < |classes| then
      if 0 <= cid then Some(classes[cid])
      else if -|classes| <= cid then Some(classes[|classes| + cid])
      else None
    else Some(IntToString(cid))
  }

  /** The pixel box of five parsed fields on a `width` x `height` image. */
  function DecodeFields(f: LabelFields, width: int, height: int, classes: seq<string>): Option<Box>
  {
    match ClassName(f.cid, classes)
    case Some(name) =>
      Some(Box(f.cid, name, LowEdge(f.xc, f.w, width), LowEdge(f.yc, f.h, height),
               HighEdge(f.xc, f.w, width), HighEdge(f.yc, f.h, height)))
    case None => None
  }

  /** `int(x * n)`: the pixel of a normalised coordinate on a side of `n` pixels. */
  function Pixel(x: real, n: int): int
  {
    Trunc(x * n as real)
  }

  /** `int((c - s/2) * n)`: the pixel of the lower edge of a span. */
  function LowEdge(c: real, s: real, n: int): int
  {
    Pixel(c - s / 2.0, n)
  }

  /** `int((c + s/2) * n)`: the pixel of the upper edge of a span. */
  function HighEdge(c: real, s: real, n: int): int
  {
    Pixel(c + s / 2.0, n)
  }

  /** `int(parts[0])` and `map(float, parts[1:5])`; tokens past the fifth are ignored. */
  function ParseFields(parts: seq<string>): Option<LabelFields>
    requires |parts| >= 5
  {
    match (ParseInt(parts[0]), ParseFloat(parts[1]), ParseFloat(parts[2]),
           ParseFloat(parts[3]), ParseFloat(parts[4]))
    case (Some(cid), Some(xc), Some(yc), Some(w), Some(h)) => Some(LabelFields(cid, xc, yc, w, h))
    case _ => None
  }

  /** One iteration of the read loop on a raw file line. */
  function DecodeLine(line: string, width: int, height: int, classes: seq<string>): LineResult
  {
    var parts := Split(Strip(line));
    if |parts| < 5 then Skipped
    else match ParseFields(parts)
      case None => Raised
      case Some(f) =>
        match DecodeFields(f, width, height, classes)
        case None => Raised
        case Some(b) => Decoded(b)
  }

  /** A line is skipped exactly when it has fewer than five tokens; it raises
    * exactly when its fields do not parse or its id is below `-len(classes)`;
    * a decoded box carries the table's name for its id. */
  lemma DecodeLineCases(line: string, width: int, height: int, classes: seq<string>)
    ensures var r := DecodeLine(line, width, height, classes);
      var parts := Split(Strip(line));
      (r == Skipped <==> |parts| < 5)
      && (r.Raised? <==> |parts| >= 5 && (ParseFields(parts).None? || ParseFields(parts).value.cid < -|classes|))
      && (r.Decoded? ==> ClassName(r.box.classId, classes) == Some(r.box.className))
  {
  }

  /** `f` applied to every element of `s`, in order. */
  function Map<T, U>(f: T -> U, s: seq<T>): (r: seq<U>)
    ensures |r| == |s|
  {
    seq(|s|, i requires 0 <= i < |s| => f(s[i]))
  }

  lemma MapAt<T, U>(f: T -> U, s: seq<T>, i: nat)
    requires i < |s|
    ensures Map(f, s)[i] == f(s[i])
  {
  }

  lemma MapSlice<T, U>(f: T -> U, s: seq<T>, i: nat, j: nat)
    requires i <= j <= |s|
    ensures Map(f, s[i..j]) == Map(f, s)[i..j]
  {
  }

  lemma MapAppend<T, U>(f: T -> U, a: seq<T>, b: seq<T>)
    ensures Map(f, a + b) == Map(f, a) + Map(f, b)
  {
    var l, r := Map(f, a + b), Map(f, a) + Map(f, b);
    forall k | 0 <= k < |l| ensures l[k] == r[k] {
      if k < |a| {
        assert (a + b)[k] == a[k];
      } else {
        assert (a + b)[k] == b[k - |a|];
      }
    }
  }

  /** The reader's treatment of one line on a `width` x `height` image. */
  function LineDecoder(width: int, height: int, classes: seq<string>): string -> LineResult
  {
    line => DecodeLine(line, width, height, classes)
  }

  /** What each line of a file does, in order. */
  function Outcomes(lines: seq<string>, width: int, height: int, classes: seq<string>): (r: seq<LineResult>)
    ensures |r| == |lines|
  {
    Map(LineDecoder(width, height, classes), lines)
  }

  lemma OutcomesAt(lines: seq<string>, k: nat, width: int, height: int, classes: seq<string>)
    requires k < |lines|
    ensures Outcomes(lines, width, height, classes)[k] == DecodeLine(lines[k], width, height, classes)
  {
    MapAt(LineDecoder(width, height, classes), lines, k);
  }

  /** The boxes a run of line outcomes appends before the first raise. */
  function Collect(rs: seq<LineResult>): seq<Box>
  {
    if rs == [] then []
    else if rs[0].Raised? then []
    else (if rs[0].Decoded? then [rs[0].box] else []) + Collect(rs[1..])
  }

  /** The boxes a whole label file yields: short lines are skipped, and the
    * first line that raises ends the read, keeping the boxes before it. */
  function DecodeAll(lines: seq<string>, width: int, height: int, classes: seq<string>): (r: seq<Box>)
    ensures |r| <= |lines|
  {
    CollectLength(Outcomes(lines, width, height, classes));
    Collect(Outcomes(lines, width, height, classes))
  }

  lemma OutcomesSlice(lines: seq<string>, i: nat, j: nat, width: int, height: int, classes: seq<string>)
    requires i <= j <= |lines|
    ensures Outcomes(lines[i..j], width, height, classes) == Outcomes(lines, width, height, classes)[i..j]
  {
    MapSlice(LineDecoder(width, height, classes), lines, i, j);
  }

  lemma OutcomesAppend(a: seq<string>, b: seq<string>, width: int, height: int, classes: seq<string>)
    ensures Outcomes(a + b, width, height, classes) == Outcomes(a, width, height, classes) + Outcomes(b, width, height, classes)
  {
    MapAppend(LineDecoder(width, height, classes), a, b);
  }

  /** One step of the read from line `i`: that line's outcome, then the rest. */
  lemma DecodeAllFrom(lines: seq<string>, i: nat, width: int, height: int, classes: seq<string>)
    requires i < |lines|
    ensures var r := DecodeLine(lines[i], width, height, classes);
      DecodeAll(lines[i..], width, height, classes)
      == if r.Raised? then [] else (if r.Decoded? then [r.box] else []) + DecodeAll(lines[i + 1..], width, height, classes)
  {
    var rs := Outcomes(lines, width, height, classes);
    OutcomesAt(lines, i, width, height, classes);
    OutcomesSlice(lines, i, |lines|, width, height, classes);
    OutcomesSlice(lines, i + 1, |lines|, width, height, classes);
    assert lines[i..|lines|] == lines[i..] && lines[i + 1..|lines|] == lines[i + 1..];
    assert rs[i..][0] == rs[i] && rs[i..][1..] == rs[i + 1..];
  }

  /** The same step seen from boxes `acc` already read: a raising line ends the
    * read, any other adds its box (if any) and moves on. */
  lemma DecodeStep(acc: seq<Box>, lines: seq<string>, i: nat, width: int, height: int, classes: seq<string>)
    requires i < |lines|
    ensures var r := DecodeLine(lines[i], width, height, classes);
      var all := acc + DecodeAll(lines[i..], width, height, classes);
      (r.Raised? ==> all == acc)
      && (r.Decoded? ==> all == (acc + [r.box]) + DecodeAll(lines[i + 1..], width, height, classes))
      && (r.Skipped? ==> all == acc + DecodeAll(lines[i + 1..], width, height, classes))
  {
    DecodeAllFrom(lines, i, width, height, classes);
    var r := DecodeLine(lines[i], width, height, classes);
    var rest := DecodeAll(lines[i + 1..], width, height, classes);
    if r.Decoded? {
      assert acc + ([r.box] + rest) == (acc + [r.box]) + rest;
    } else if r.Raised? {
      assert acc + [] == acc;
    } else {
      assert [] + rest == rest;
    }
  }

  predicate NoneRaises(lines: seq<string>, width: int, height: int, classes: seq<string>)
  {
    forall k :: 0 <= k < |lines| ==> DecodeLine(lines[k], width, height, classes) != Raised
  }

  /** The five fields the writer computes for a box on a `width` x `height` image. */
  function EncodeBox(b: Box, width: int, height: int): (r: LabelFields)
    requires width > 0 && height > 0
    ensures r.cid == b.classId
    ensures (r.xc - r.w / 2.0) * width as real == b.x1 as real && (r.xc + r.w / 2.0) * width as real == b.x2 as real
    ensures (r.yc - r.h / 2.0) * height as real == b.y1 as real && (r.yc + r.h / 2.0) * height as real == b.y2 as real
  {
    HalfSpanInt(b.x1, b.x2, width);
    HalfSpanInt(b.y1, b.y2, height);
    LabelFields(b.classId,
      (b.x1 + b.x2) as real / 2.0 / width as real,
      (b.y1 + b.y2) as real / 2.0 / height as real,
      (b.x2 - b.x1) as real / width as real,
      (b.y2 - b.y1) as real / height as real)
  }

  function EncodeAll(boxes: seq<Box>, width: int, height: int): (r: seq<LabelFields>)
    requires width > 0 && height > 0
    ensures |r| == |boxes|
    ensures forall k :: 0 <= k < |boxes| ==> r[k] == EncodeBox(boxes[k], width, height)
  {
    if boxes == [] then [] else [EncodeBox(boxes[0], width, height)] + EncodeAll(boxes[1..], width, height)
  }

  lemma HalfSpan(A: real, B: real, N: real)
    requires N > 0.0
    ensures ((A + B) / 2.0 / N - (B - A) / N / 2.0) * N == A
    ensures ((A + B) / 2.0 / N + (B - A) / N / 2.0) * N == B
  {
    var u, v := A / N, B / N;
    assert (A + B) / 2.0 / N == (u + v) / 2.0;
    assert (B - A) / N == v - u;
    assert u * N == A && v * N == B;
  }

  lemma HalfSpanInt(a: int, b: int, n: int)
    requires n > 0
    ensures ((a + b) as real / 2.0 / n as real - (b - a) as real / n as real / 2.0) * n as real == a as real
    ensures ((a + b) as real / 2.0 / n as real + (b - a) as real / n as real / 2.0) * n as real == b as real
  {
    assert (a + b) as real == a as real + b as real && (b - a) as real == b as real - a as real;
    HalfSpan(a as real, b as real, n as real);
  }

  /** The centre and size written for a span `a..b` decode back to `a` and `b`. */
  lemma CentreAndHalf(a: int, b: int, n: int)
    requires n > 0
    ensures LowEdge((a + b) as real / 2.0 / n as real, (b - a) as real / n as real, n) == a
    ensures HighEdge((a + b) as real / 2.0 / n as real, (b - a) as real / n as real, n) == b
  {
    HalfSpanInt(a, b, n);
    EdgesAt((a + b) as real / 2.0 / n as real, (b - a) as real / n as real, n, a, b);
  }

  lemma EdgesAt(c: real, s: real, n: int, lo: int, hi: int)
    requires (c - s / 2.0) * n as real == lo as real && (c + s / 2.0) * n as real == hi as real
    ensures LowEdge(c, s, n) == lo && HighEdge(c, s, n) == hi
  {
    TruncOfInt(lo);
    TruncOfInt(hi);
  }

  /** Decoding the fields written for a box gives back its class id and its four
    * integer corners exactly (exact arithmetic); the name is the table's name
    * for the id, and the read raises only when that id has no name. */
  lemma EncodeDecode(b: Box, width: int, height: int, classes: seq<string>)
    requires width > 0 && height > 0
    ensures var r := DecodeFields(EncodeBox(b, width, height), width, height, classes);
      (r.None? <==> b.classId < -|classes|)
      && (r.Some? ==> r.value == b.(className := ClassName(b.classId, classes).value))
  {
    CentreAndHalf(b.x1, b.x2, width);
    CentreAndHalf(b.y1, b.y2, height);
  }

  /** A box whose name is the table's name for its id survives a save and reload unchanged. */
  lemma EncodeDecodeNamed(b: Box, width: int, height: int, classes: seq<string>)
    requires width > 0 && height > 0
    requires ClassName(b.classId, classes) == Some(b.className)
    ensures DecodeFields(EncodeBox(b, width, height), width, height, classes) == Some(b)
  {
    EncodeDecode(b, width, height, classes);
  }

  /** Fields that describe a box inside the unit square decode to a box inside
    * the image, with its corners in order. */
  lemma DecodeInsideImage(f: LabelFields, width: int, height: int, classes: seq<string>)
    requires width > 0 && height > 0
    requires 0.0 <= f.xc - f.w / 2.0 && f.xc + f.w / 2.0 <= 1.0 && 0.0 <= f.w
    requires 0.0 <= f.yc - f.h / 2.0 && f.yc + f.h / 2.0 <= 1.0 && 0.0 <= f.h
    requires ClassName(f.cid, classes).Some?
    ensures var r := DecodeFields(f, width, height, classes);
      r.Some? && 0 <= r.value.x1 <= r.value.x2 <= width && 0 <= r.value.y1 <= r.value.y2 <= height
  {
    EdgesInside(f.xc, f.w, width);
    EdgesInside(f.yc, f.h, height);
  }

  lemma ScaleMonotone(a: real, b: real, k: real)
    requires a <= b && 0.0 <= k
    ensures a * k <= b * k
  {
    assert b * k - a * k == (b - a) * k;
  }

  lemma TruncBetween(a: real, b: real, n: int)
    requires 0.0 <= a <= b <= n as real
    ensures 0 <= Trunc(a) <= Trunc(b) <= n
  {
    TruncMonotone(a, b);
    TruncMonotone(b, n as real);
  }

  lemma ScaleWithin(lo: real, hi: real, N: real)
    requires 0.0 <= lo <= hi <= 1.0 && N > 0.0
    ensures 0.0 <= lo * N <= hi * N <= N
  {
    ScaleMonotone(0.0, lo, N);
    ScaleMonotone(lo, hi, N);
    ScaleMonotone(hi, 1.0, N);
  }

  lemma TruncSpan(lo: real, hi: real, n: int)
    requires 0.0 <= lo <= hi <= 1.0 && n > 0
    ensures 0 <= Pixel(lo, n) <= Pixel(hi, n) <= n
  {
    ScaleWithin(lo, hi, n as real);
    TruncBetween(lo * n as real, hi * n as real, n);
  }

  lemma EdgesInside(c: real, s: real, n: int)
    requires n > 0 && 0.0 <= s && 0.0 <= c - s / 2.0 && c + s / 2.0 <= 1.0
    ensures 0 <= LowEdge(c, s, n) <= HighEdge(c, s, n) <= n
  {
    TruncSpan(c - s / 2.0, c + s / 2.0, n);
  }

  lemma {:induction false} CollectLength(rs: seq<LineResult>)
    ensures |Collect(rs)| <= |rs|
  {
    if rs != [] {
      CollectLength(rs[1..]);
    }
  }

  lemma {:induction false} CollectStopsAtRaise(rs: seq<LineResult>, k: nat)
    requires k < |rs| && rs[k] == Raised
    ensures Collect(rs) == Collect(rs[..k])
  {
    if k > 0 {
      assert rs[..k][0] == rs[0];
      assert rs[1..][..k - 1] == rs[..k][1..];
      CollectStopsAtRaise(rs[1..], k - 1);
    }
  }

  lemma {:induction false} CollectAppend(a: seq<LineResult>, b: seq<LineResult>)
    requires forall k :: 0 <= k < |a| ==> a[k] != Raised
    ensures Collect(a + b) == Collect(a) + Collect(b)
  {
    if a == [] {
      assert a + b == b;
    } else {
      assert (a + b)[0] == a[0];
      assert (a + b)[1..] == a[1..] + b;
      CollectAppend(a[1..], b);
    }
  }

  /** Reading stops at the first line that raises: nothing after it is read, and
    * the boxes of the lines before it are kept. */
  lemma DecodeStopsAtRaise(lines: seq<string>, k: nat, width: int, height: int, classes: seq<string>)
    requires k < |lines| && DecodeLine(lines[k], width, height, classes) == Raised
    ensures DecodeAll(lines, width, height, classes) == DecodeAll(lines[..k], width, height, classes)
  {
    var rs := Outcomes(lines, width, height, classes);
    OutcomesAt(lines, k, width, height, classes);
    CollectStopsAtRaise(rs, k);
    OutcomesSlice(lines, 0, k, width, height, classes);
    assert lines[0..k] == lines[..k] && rs[0..k] == rs[..k];
  }

  /** When no line of `a` raises, reading `a + b` is reading `a` then reading `b`. */
  lemma DecodeAllAppend(a: seq<string>, b: seq<string>, width: int, height: int, classes: seq<string>)
    requires NoneRaises(a, width, height, classes)
    ensures DecodeAll(a + b, width, height, classes)
         == DecodeAll(a, width, height, classes) + DecodeAll(b, width, height, classes)
  {
    var oa := Outcomes(a, width, height, classes);
    forall k | 0 <= k < |oa| ensures oa[k] != Raised {
      OutcomesAt(a, k, width, height, classes);
    }
    OutcomesAppend(a, b, width, height, classes);
    CollectAppend(oa, Outcomes(b, width, height, classes));
  }

  /** A line with fewer than five tokens is skipped. */
  lemma ShortLineSkipped(line: string, width: int, height: int, classes: seq<string>)
    requires |Split(Strip(line))| < 5
    ensures DecodeLine(line, width, height, classes) == Skipped
  {
  }

  /** A file of one short line raises nothing and yields nothing. */
  lemma ShortLineYieldsNothing(line: string, width: int, height: int, classes: seq<string>)
    requires |Split(Strip(line))| < 5
    ensures NoneRaises([line], width, height, classes)
    ensures DecodeAll([line], width, height, classes) == []
  {
    ShortLineSkipped(line, width, height, classes);
    OutcomesAt([line], 0, width, height, classes);
    var rs := Outcomes([line], width, height, classes);
    assert rs == [Skipped];
    assert rs[1..] == [];
    assert Collect(rs) == [] + Collect([]);
  }

  /** A short first line is passed over. */
  lemma ShortFirstLineSkipped(line: string, b: seq<string>, width: int, height: int, classes: seq<string>)
    requires |Split(Strip(line))| < 5
    ensures DecodeAll([line] + b, width, height, classes) == DecodeAll(b, width, height, classes)
  {
    ShortLineYieldsNothing(line, width, height, classes);
    DecodeAllAppend([line], b, width, height, classes);
  }

  /** A short line (fewer than five tokens) anywhere is passed over without effect. */
  lemma DecodeSkipsShortLine(a: seq<string>, line: string, b: seq<string>, width: int, height: int, classes: seq<string>)
    requires NoneRaises(a, width, height, classes)
    requires |Split(Strip(line))| < 5
    ensures DecodeAll(a + [line] + b, width, height, classes) == DecodeAll(a + b, width, height, classes)
  {
    ShortFirstLineSkipped(line, b, width, height, classes);
    DecodeAllAppend(a, [line] + b, width, height, classes);
    DecodeAllAppend(a, b, width, height, classes);
    assert a + [line] + b == a + ([line] + b);
  }
}
