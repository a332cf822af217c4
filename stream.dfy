/** `StreamRedirector` (utils.py:7-47): text written to it is collected in a
  * buffer, and the buffer is handed on as one chunk when a written piece holds
  * a newline, when the buffer grows past 1000 characters, or on `flush`. The
  * chunks handed on (`text_written.emit`) are recorded in order. */
module Stream {

  /** The buffer size above which a write hands the buffer on. */
  const Limit: nat := 1000

  /** All the chunks, joined. */
  function Concat(chunks: seq<string>): string
  {
    if chunks == [] then "" else Concat(chunks[..|chunks| - 1]) + chunks[|chunks| - 1]
  }

  /** What the redirector holds: the pending buffer and the chunks emitted so far. */
  datatype State = State(buffer: string, emitted: seq<string>)

  /** `write(text)` on a piece already decoded to a string. */
  function AfterWrite(s: State, text: string): (r: State)
    ensures s.emitted <= r.emitted && |r.emitted| <= |s.emitted| + 1
    ensures r.buffer == s.buffer + text || r.buffer == ""
    ensures '\n' in text ==> r.buffer == ""
  {
    var b := s.buffer + text;
    if '\n' in text || |b| > Limit then State("", s.emitted + [b]) else State(b, s.emitted)
  }

  /** `flush()`. */
  function AfterFlush(s: State): (r: State)
    ensures r.buffer == "" && s.emitted <= r.emitted && |r.emitted| <= |s.emitted| + 1
  {
    if s.buffer != "" then State("", s.emitted + [s.buffer]) else s
  }

  /** The state after writing each piece of `texts` in turn. */
  function AfterWrites(s: State, texts: seq<string>): State
    decreases |texts|
  {
    if texts == [] then s else AfterWrites(AfterWrite(s, texts[0]), texts[1..])
  }

  /** The redirector's invariant: the buffer is at most 1000 characters long and
    * no emitted chunk is empty. */
  predicate Good(s: State)
  {
    |s.buffer| <= Limit && forall k :: 0 <= k < |s.emitted| ==> s.emitted[k] != ""
  }

  /** A write keeps the invariant, and a piece holding a newline leaves the
    * buffer empty; a write emits at most one chunk. */
  lemma WriteKeepsGood(s: State, text: string)
    requires Good(s)
    ensures Good(AfterWrite(s, text))
    ensures '\n' in text ==> AfterWrite(s, text).buffer == ""
    ensures |AfterWrite(s, text).emitted| <= |s.emitted| + 1
    ensures AfterWrite(s, text).emitted[..|s.emitted|] == s.emitted
  {
    var b := s.buffer + text;
    if '\n' in text {
      assert text != "";
      assert |b| > 0;
    }
  }

  /** Flushing keeps the invariant, always empties the buffer, and emits only a
    * non-empty buffer. */
  lemma FlushKeepsGood(s: State)
    requires Good(s)
    ensures Good(AfterFlush(s)) && AfterFlush(s).buffer == ""
    ensures s.buffer == "" <==> AfterFlush(s).emitted == s.emitted
  {
  }

  lemma {:induction false} ConcatSnoc(chunks: seq<string>, x: string)
    ensures Concat(chunks + [x]) == Concat(chunks) + x
  {
    assert (chunks + [x])[..|chunks + [x]| - 1] == chunks;
  }

  /** Nothing is lost or reordered by a write: the emitted text followed by the
    * buffer grows by exactly the written piece. */
  lemma WriteConserves(s: State, text: string)
    ensures var r := AfterWrite(s, text);
      Concat(r.emitted) + r.buffer == Concat(s.emitted) + s.buffer + text
  {
    ConcatSnoc(s.emitted, s.buffer + text);
  }

  /** Nor by a flush. */
  lemma FlushConserves(s: State)
    ensures var r := AfterFlush(s);
      Concat(r.emitted) + r.buffer == Concat(s.emitted) + s.buffer
  {
    ConcatSnoc(s.emitted, s.buffer);
  }

  /** Over any run of writes, the emitted chunks and the buffer together grow by
    * exactly the written text, in order, and the invariant holds throughout. */
  lemma {:induction false} WriteAllConserves(s: State, texts: seq<string>)
    requires Good(s)
    ensures var r := AfterWrites(s, texts);
      Good(r) && Concat(r.emitted) + r.buffer == Concat(s.emitted) + s.buffer + Concat(texts)
    decreases |texts|
  {
    if texts != [] {
      var s1 := AfterWrite(s, texts[0]);
      WriteKeepsGood(s, texts[0]);
      WriteConserves(s, texts[0]);
      WriteAllConserves(s1, texts[1..]);
      ConcatCons(texts[0], texts[1..]);
      assert [texts[0]] + texts[1..] == texts;
    }
  }

  lemma {:induction false} ConcatCons(x: string, rest: seq<string>)
    ensures Concat([x] + rest) == x + Concat(rest)
    decreases |rest|
  {
    if rest == [] {
      assert [x] + rest == [x];
      assert [x][..0] == [];
    } else {
      var last := rest[|rest| - 1];
      var init := rest[..|rest| - 1];
      assert [x] + rest == ([x] + init) + [last];
      ConcatSnoc([x] + init, last);
      ConcatCons(x, init);
      assert rest == init + [last];
      ConcatSnoc(init, last);
    }
  }

  class StreamRedirector {
    var buffer: string
    /** The chunks passed to `text_written.emit`, in order. */
    var emitted: seq<string>
    /** Everything written so far, joined. */
    ghost var written: string

    ghost predicate Valid()
      reads this
    {
      Good(State(buffer, emitted)) && Concat(emitted) + buffer == written
    }

    constructor ()
      ensures Valid() && buffer == "" && emitted == [] && written == ""
    {
      buffer := "";
      emitted := [];
      written := "";
    }

    /** `write(text)`. */
    method Write(text: string)
      requires Valid()
      modifies this
      ensures Valid()
      ensures State(buffer, emitted) == AfterWrite(State(old(buffer), old(emitted)), text)
      ensures written == old(written) + text
    {
      WriteKeepsGood(State(buffer, emitted), text);
      WriteConserves(State(buffer, emitted), text);
      written := written + text;
      buffer := buffer + text;
      if '\n' in text || |buffer| > Limit {
        emitted := emitted + [buffer];
        buffer := "";
      }
    }

    /** `flush()`. */
    method Flush()
      requires Valid()
      modifies this
      ensures Valid() && buffer == ""
      ensures State(buffer, emitted) == AfterFlush(State(old(buffer), old(emitted)))
      ensures written == old(written)
    {
      FlushKeepsGood(State(buffer, emitted));
      FlushConserves(State(buffer, emitted));
      if buffer != "" {
        emitted := emitted + [buffer];
        buffer := "";
      }
    }
  }
}
