/**
 * `read_line`: append bytes up to and including the next line terminator.
 *
 * A reader is a window of already buffered bytes plus the outcomes of the
 * refills still to come. How the stream is cut into refills is arbitrary.
 */
module LineReader {
  import opened Basics

  const LF: Byte := 10
  const CR: Byte := 13

  type Chunk = s: seq<Byte> | |s| > 0 witness [0]

  /** What one refill of the window does: deliver bytes, or fail. */
  datatype Fill = Data(bytes: Chunk) | Interrupted | Failed(kind: ErrorKind)

  datatype Source = Source(buffered: seq<Byte>, fills: seq<Fill>)

  /** `memchr`: the first position of `needle`. */
  function MemChr(needle: Byte, hay: seq<Byte>): (r: Option<nat>)
    ensures r.Some? ==> r.value < |hay| && hay[r.value] == needle
    ensures forall j :: 0 <= j < (if r.Some? then r.value else |hay|) ==> hay[j] != needle
  {
    MemChrFrom(needle, hay, 0)
  }

  function MemChrFrom(needle: Byte, hay: seq<Byte>, i: nat): (r: Option<nat>)
    requires i <= |hay|
    ensures r.Some? ==> i <= r.value < |hay| && hay[r.value] == needle
    ensures forall j :: i <= j < (if r.Some? then r.value else |hay|) ==> hay[j] != needle
    decreases |hay| - i
  {
    if i == |hay| then None else if hay[i] == needle then Some(i) else MemChrFrom(needle, hay, i + 1)
  }

  /** All bytes the reader will ever deliver. */
  function Stream(src: Source): seq<Byte> {
    src.buffered + Bytes(src.fills)
  }

  function Bytes(fills: seq<Fill>): seq<Byte> {
    if fills == [] then []
    else (if fills[0].Data? then fills[0].bytes else []) + Bytes(fills[1..])
  }

  predicate NeverFails(src: Source) {
    forall f <- src.fills :: !f.Failed?
  }

  function Size(src: Source): nat {
    |src.buffered| + FillSize(src.fills)
  }

  function FillSize(fills: seq<Fill>): nat {
    if fills == [] then 0
    else 1 + (if fills[0].Data? then |fills[0].bytes| else 0) + FillSize(fills[1..])
  }

  /** How much of the window a call takes, and whether that ends the line. */
  function Cut(window: seq<Byte>): (r: (bool, nat))
    ensures r.1 <= |window|
    ensures window != [] ==> r.1 > 0
  {
    match MemChr(LF, window)
    case Some(i) => (true, i + 1)
    case None =>
      match MemChr(CR, window)
      case Some(i) => (true, i + 1)
      case None => (false, |window|)
  }

  /** One call: the bytes it appended, how it ended, and the reader it leaves. */
  datatype Call = Call(bytes: seq<Byte>, outcome: Result<nat>, rest: Source)

  function Appended(head: seq<Byte>, c: Call): Call {
    Call(head + c.bytes, if c.outcome.Ok? then Ok(|head| + c.outcome.value) else c.outcome, c.rest)
  }

  function NextLine(src: Source): (c: Call)
    ensures Size(c.rest) <= Size(src) && (c.outcome != Ok(0) ==> Size(c.rest) < Size(src))
    decreases Size(src)
  {
    if src.buffered == [] then
      if src.fills == [] then Call([], Ok(0), src)
      else
        var later := src.fills[1..];
        match src.fills[0]
        case Data(bytes) => NextLine(Source(bytes, later))
        case Interrupted => NextLine(Source([], later))
        case Failed(kind) => Call([], Err(kind), Source([], later))
    else
      var (done, used) := Cut(src.buffered);
      var head, rest := src.buffered[..used], Source(src.buffered[used..], src.fills);
      if done then Call(head, Ok(used), rest) else Appended(head, NextLine(rest))
  }

  /** What one pass of the loop did: try again, give up, or take some bytes. */
  datatype Window = Retry | Broken(kind: ErrorKind) | Took(done: bool, head: seq<Byte>)

  /** What one pass says about the call: it has still to do `later` from the reader `view` on, or is over. */
  predicate Yields(w: Window, next: Call, later: Call, view: Source) {
    match w
    case Retry => next == later
    case Broken(kind) => next == Call([], Err(kind), view)
    case Took(done, head) => next == if done || head == [] then Call(head, Ok(|head|), view) else Appended(head, later)
  }

  /** A `BufRead` whose buffer and pending refills change as it is read. */
  class BufReader {
    var buffered: seq<Byte>
    var fills: seq<Fill>

    function View(): Source
      reads this
    {
      Source(buffered, fills)
    }

    constructor (src: Source)
      ensures View() == src
    {
      buffered, fills := src.buffered, src.fills;
    }

    /** `fill_buf`: the window, refilled first when it is empty. */
    method FillBuf() returns (r: Fill, available: seq<Byte>)
      modifies this
      ensures old(buffered) != [] || old(fills) == [] ==> View() == old(View()) && available == buffered
      ensures old(buffered) == [] && old(fills) != [] ==>
                r == old(fills[0]) && fills == old(fills[1..]) &&
                buffered == available == if r.Data? then r.bytes else []
      ensures old(buffered) != [] || old(fills) == [] ==> r.Data?
      ensures NextLine(old(View())) == if r.Failed? then Call([], Err(r.kind), View()) else NextLine(View())
      ensures Size(View()) <= old(Size(View())) && (!r.Data? ==> Size(View()) < old(Size(View())))
    {
      r := Data([0]);
      if buffered == [] && fills != [] {
        r, fills := fills[0], fills[1..];
        buffered := if r.Data? then r.bytes else [];
      }
      available := buffered;
    }

    method Consume(used: nat)
      requires used <= |buffered|
      modifies `buffered
      ensures buffered == old(buffered)[used..]
    {
      buffered := buffered[used..];
    }

    /** The byte search at the heart of the loop: a line feed anywhere wins over a carriage return. */
    static method ScanWindow(available: seq<Byte>) returns (done: bool, used: nat)
      ensures (done, used) == Cut(available)
    {
      match MemChr(LF, available) {
        case Some(i) => done, used := true, i + 1;
        case None =>
          match MemChr(CR, available) {
            case Some(i) => done, used := true, i + 1;
            case None => done, used := false, |available|;
          }
      }
    }

    /** One pass of the loop body: refill, scan, take what the scan allows. */
    method TakeWindow() returns (w: Window)
      modifies this
      ensures Yields(w, NextLine(old(View())), NextLine(View()), View())
      ensures w.Retry? || (w.Took? && !w.done && w.head != []) ==> Size(View()) < old(Size(View()))
    {
      var fill, available := FillBuf();
      if fill.Interrupted? {
        return Retry;
      }
      if fill.Failed? {
        return Broken(fill.kind);
      }
      var done, used := ScanWindow(available);
      Consume(used);
      return Took(done, available[..used]);
    }

    /** One pass of the loop, with what it does to the caller's buffer and count. */
    method AppendWindow(buf: seq<Byte>, read: nat, ghost whole: Call, ghost buf0: seq<Byte>)
      returns (over: bool, r: Result<nat>, buf': seq<Byte>, read': nat)
      requires Remains(whole, buf0, NextLine(View()), buf, read)
      modifies this
      ensures if over then Over(whole, buf0, buf', r, View()) else Remains(whole, buf0, NextLine(View()), buf', read')
      ensures !over ==> Size(View()) < old(Size(View()))
    {
      ghost var next := NextLine(View());
      var w := TakeWindow();
      WindowTaken(whole, buf0, next, NextLine(View()), View(), w, buf, read);
      match w {
        case Retry => return false, Ok(read), buf, read;
        case Broken(kind) => return true, Err(kind), buf, read;
        case Took(done, head) => return done || head == [], Ok(read + |head|), buf + head, read + |head|;
      }
    }

    /** `read_line`: the loop over windows, appending to `buf` as it goes. */
    method ReadLine(buf0: seq<Byte>) returns (r: Result<nat>, buf: seq<Byte>)
      modifies this
      ensures var c := NextLine(old(View())); buf == buf0 + c.bytes && r == c.outcome && View() == c.rest
    {
      buf := buf0;
      var read: nat := 0;
      ghost var whole := NextLine(View());
      while true
        invariant Remains(whole, buf0, NextLine(View()), buf, read)
        decreases Size(View())
      {
        var over: bool;
        over, r, buf, read := AppendWindow(buf, read, whole, buf0);
        if over {
          return;
        }
      }
    }
  }

  /** What a call has to do when `buf` holds all but what `next` will still append. */
  predicate Remains(whole: Call, buf0: seq<Byte>, next: Call, buf: seq<Byte>, read: nat) {
    && buf0 + whole.bytes == buf + next.bytes && whole.rest == next.rest
    && whole.outcome == if next.outcome.Ok? then Ok(read + next.outcome.value) else next.outcome
  }

  /** The call is over: this is what it appended, answers and leaves. */
  predicate Over(whole: Call, buf0: seq<Byte>, buf: seq<Byte>, r: Result<nat>, view: Source) {
    buf0 + whole.bytes == buf && whole.outcome == r && whole.rest == view
  }

  lemma WindowTaken(whole: Call, buf0: seq<Byte>, next: Call, later: Call, view: Source, w: Window, buf: seq<Byte>,
                    read: nat)
    requires Remains(whole, buf0, next, buf, read) && Yields(w, next, later, view)
    ensures match w
            case Retry => Remains(whole, buf0, later, buf, read)
            case Broken(kind) => Over(whole, buf0, buf, Err(kind), view)
            case Took(done, head) =>
              if done || head == [] then Over(whole, buf0, buf + head, Ok(read + |head|), view)
              else Remains(whole, buf0, later, buf + head, read + |head|)
  {
    if w.Took? {
      assert buf + (w.head + later.bytes) == buf + w.head + later.bytes;
    }
  }

  /** The bytes appended by each call, calling until one reports end of stream. */
  function Calls(src: Source): seq<seq<Byte>>
    decreases Size(src)
  {
    var c := NextLine(src);
    if c.outcome == Ok(0) then [] else [c.bytes] + Calls(c.rest)
  }

  function Concat(parts: seq<seq<Byte>>): seq<Byte> {
    if parts == [] then [] else parts[0] + Concat(parts[1..])
  }

  /** A call hands over a prefix of the stream, and its count is what it appended. */
  lemma {:induction false} CallConserves(src: Source)
    ensures var c := NextLine(src);
            Stream(src) == c.bytes + Stream(c.rest) && (c.outcome.Ok? ==> c.outcome.value == |c.bytes|)
    decreases Size(src)
  {
    if src.buffered == [] {
      if src.fills != [] {
        var next := Source(if src.fills[0].Data? then src.fills[0].bytes else [], src.fills[1..]);
        assert Stream(next) == Stream(src);
        if !src.fills[0].Failed? {
          CallConserves(next);
        }
      }
    } else {
      var (done, used) := Cut(src.buffered);
      var head, rest := src.buffered[..used], Source(src.buffered[used..], src.fills);
      assert Stream(src) == head + Stream(rest);
      if !done {
        CallConserves(rest);
      }
    }
  }

  /** The shape of one result. */
  lemma {:induction false} LineShape(src: Source)
    ensures var c := NextLine(src);
            && (forall i :: 0 <= i < |c.bytes| - 1 ==> c.bytes[i] != LF)
            && (c.outcome.Ok? && c.bytes != [] && Stream(c.rest) != [] ==>
                  c.bytes[|c.bytes| - 1] == LF || c.bytes[|c.bytes| - 1] == CR)
            && (c.outcome == Ok(0) ==> Stream(src) == [] && src.buffered == [])
    decreases Size(src)
  {
    if src.buffered == [] {
      if src.fills != [] {
        match src.fills[0]
        case Data(bytes) => LineShape(Source(bytes, src.fills[1..]));
        case Interrupted => LineShape(Source([], src.fills[1..]));
        case Failed(_) =>
      }
    } else {
      var (done, used) := Cut(src.buffered);
      if !done {
        LineShape(Source(src.buffered[used..], src.fills));
        CallConserves(Source(src.buffered[used..], src.fills));
      }
    }
  }

  /** Repeated calls deliver exactly the stream, also across failing calls. */
  lemma {:induction false} CallsConserveStream(src: Source)
    ensures Concat(Calls(src)) == Stream(src)
    decreases Size(src)
  {
    var c := NextLine(src);
    LineShape(src);
    CallConserves(src);
    if c.outcome != Ok(0) {
      CallsConserveStream(c.rest);
    }
  }

  /** The lines of a stream, without any notion of chunks. */
  function SplitLines(s: seq<Byte>): seq<seq<Byte>> {
    if s == [] then []
    else
      var (_, used) := Cut(s);
      [s[..used]] + SplitLines(s[used..])
  }

  /** No carriage return comes before a line feed. */
  predicate FeedsFirst(s: seq<Byte>) {
    forall i, j :: 0 <= i < j < |s| && s[i] == CR ==> s[j] != LF
  }

  lemma {:induction false} NextLineIsCut(src: Source)
    requires NeverFails(src) && FeedsFirst(Stream(src))
    ensures var c := NextLine(src); c.outcome.Ok? && NeverFails(c.rest)
    ensures |NextLine(src).bytes| == Cut(Stream(src)).1
    decreases Size(src)
  {
    if src.buffered == [] {
      if src.fills != [] {
        var next := Source(if src.fills[0].Data? then src.fills[0].bytes else [], src.fills[1..]);
        assert Stream(next) == Stream(src);
        NextLineIsCut(next);
      }
    } else {
      var (done, used) := Cut(src.buffered);
      var rest := Source(src.buffered[used..], src.fills);
      CutOfPrefix(src.buffered, Bytes(src.fills));
      if !done {
        assert Stream(rest) == Bytes(src.fills);
        FeedsFirstSuffix(src.buffered, Bytes(src.fills));
        NextLineIsCut(rest);
      }
    }
  }

  lemma FeedsFirstAt(a: seq<Byte>, b: seq<Byte>, i: nat, j: nat)
    requires FeedsFirst(a + b) && i < |a| && j < |b| && a[i] == CR
    ensures b[j] != LF
  {
    assert (a + b)[i] == CR;
    assert (a + b)[|a| + j] == b[j];
  }

  lemma FeedsFirstSuffix(a: seq<Byte>, b: seq<Byte>)
    requires FeedsFirst(a + b)
    ensures FeedsFirst(b)
  {
    forall i, j | 0 <= i < j < |b| && b[i] == CR ensures b[j] != LF {
      assert (a + b)[|a| + i] == CR;
      assert (a + b)[|a| + j] == b[j];
    }
  }

  lemma CutOfPrefix(a: seq<Byte>, b: seq<Byte>)
    requires FeedsFirst(a + b)
    ensures Cut(a).0 ==> Cut(a + b) == Cut(a)
    ensures !Cut(a).0 ==> Cut(a + b) == (Cut(b).0, |a| + Cut(b).1)
  {
    MemChrOfConcat(LF, a, b);
    MemChrOfConcat(CR, a, b);
    if MemChr(CR, a).Some? && MemChr(LF, b).Some? {
      var i, j := MemChr(CR, a).value, MemChr(LF, b).value;
      FeedsFirstAt(a, b, i, j);
    }
  }

  lemma MemChrOfConcat(needle: Byte, a: seq<Byte>, b: seq<Byte>)
    ensures MemChr(needle, a + b) ==
            match MemChr(needle, a)
            case Some(i) => Some(i)
            case None => match MemChr(needle, b) case Some(i) => Some(|a| + i) case None => None
  {
    var r, ra, rb := MemChr(needle, a + b), MemChr(needle, a), MemChr(needle, b);
    assert ra.Some? ==> (a + b)[ra.value] == needle;
    assert rb.Some? ==> (a + b)[|a| + rb.value] == needle;
    assert r.Some? && r.value < |a| ==> a[r.value] == needle;
    assert r.Some? && r.value >= |a| ==> b[r.value - |a|] == needle;
  }

  /** Chunk independence, where it holds: the calls are the stream's own lines. */
  lemma {:induction false} CallsAreLines(src: Source)
    requires NeverFails(src) && FeedsFirst(Stream(src))
    ensures Calls(src) == SplitLines(Stream(src))
    decreases Size(src)
  {
    var c, s := NextLine(src), Stream(src);
    NextLineIsCut(src);
    LineShape(src);
    CallConserves(src);
    if c.outcome == Ok(0) {
      assert s == [];
    } else {
      var used := Cut(s).1;
      assert s == s[..used] + s[used..];
      assert c.bytes == s[..used] && Stream(c.rest) == s[used..];
      assert FeedsFirst(s[used..]) by { FeedsFirstSuffix(s[..used], s[used..]); }
      CallsAreLines(c.rest);
    }
  }

  /** A chunk that ends at its only line feed is one line, whatever follows. */
  lemma PrependLine(head: seq<Byte>, fills: seq<Fill>)
    requires |head| > 0 && Cut(head) == (true, |head|)
    ensures var p := Source([], [Data(head)] + fills);
            Stream(p) == head + Bytes(fills) && Calls(p) == [head] + Calls(Source([], fills))
  {
    var p := Source([], [Data(head)] + fills);
    assert p.fills[1..] == fills;
    assert head[..|head|] == head && head[|head|..] == [];
    assert NextLine(p) == NextLine(Source(head, fills)) == Call(head, Ok(|head|), Source([], fills));
  }

  /** The first line of a stream that arrives in one chunk. */
  lemma OneChunk(s: seq<Byte>) returns (p: Source)
    requires MemChr(LF, s).Some?
    ensures p.buffered == [] && NeverFails(p) && Stream(p) == s
    ensures Calls(p) != [] && |Calls(p)[0]| == MemChr(LF, s).value + 1
  {
    p := Source([], [Data(s)]);
    assert p.fills[1..] == [];
    assert Bytes([]) == [] && Stream(p) == s;
    assert NextLine(p) == NextLine(Source(s, []));
  }

  lemma BytesOfOne(chunk: Chunk)
    ensures Bytes([Data(chunk)]) == chunk
  {
    assert [Data(chunk)][1..] == [];
  }

  /** The part of a chunk up to its first carriage return, no line feed before it, is one line. */
  lemma CutsAfterReturn(s: seq<Byte>, m: nat)
    requires m < |s| && MemChr(CR, s) == Some(m) && (forall j :: 0 <= j <= m ==> s[j] != LF)
    ensures Cut(s[..m + 1]) == (true, m + 1)
  {
    var head := s[..m + 1];
    assert s == head + s[m + 1..];
    assert head[m] == CR;
    MemChrOfConcat(CR, head, s[m + 1..]);
  }

  /** Cutting the chunk at a carriage return before the first line feed ends the line there. */
  lemma CutAtReturn(s: seq<Byte>, m: nat) returns (p: Source)
    requires m < |s| - 1 && MemChr(CR, s) == Some(m) && (forall j :: 0 <= j <= m ==> s[j] != LF)
    ensures p.buffered == [] && NeverFails(p) && Stream(p) == s
    ensures Calls(p) != [] && |Calls(p)[0]| == m + 1
  {
    var head, tail := s[..m + 1], s[m + 1..];
    assert s == head + tail;
    CutsAfterReturn(s, m);
    BytesOfOne(tail);
    p := Source([], [Data(head)] + [Data(tail)]);
    PrependLine(head, [Data(tail)]);
  }

  /** A stream with a carriage return before a line feed can be chunked to give other lines. */
  lemma {:induction false} ChunkDependent(s: seq<Byte>) returns (a: Source, b: Source)
    requires !FeedsFirst(s)
    ensures a.buffered == b.buffered == [] && NeverFails(a) && NeverFails(b)
    ensures Stream(a) == s == Stream(b) && Calls(a) != Calls(b)
    decreases |s|
  {
    var i, j :| 0 <= i < j < |s| && s[i] == CR && s[j] == LF;
    var k := MemChr(LF, s).value;
    var m := MemChr(CR, s).value;
    if m < k {
      a := OneChunk(s);
      b := CutAtReturn(s, m);
      assert |Calls(a)[0]| != |Calls(b)[0]|;
    } else {
      LaterReturn(s, i, j);
      a, b := ChunkDependent(s[k + 1..]);
      a := PrependFirstLine(s, a);
      b := PrependFirstLine(s, b);
    }
  }

  lemma LaterReturn(s: seq<Byte>, i: nat, j: nat)
    requires i < j < |s| && s[i] == CR && s[j] == LF
    requires MemChr(LF, s).value <= MemChr(CR, s).value
    ensures !FeedsFirst(s[MemChr(LF, s).value + 1..])
  {
    var k := MemChr(LF, s).value;
    FirstAt(LF, s, j);
    FirstAt(CR, s, i);
    LaterPair(s, k + 1, i, j);
  }

  lemma FirstAt(needle: Byte, s: seq<Byte>, i: nat)
    requires i < |s| && s[i] == needle
    ensures MemChr(needle, s).Some? && MemChr(needle, s).value <= i && s[MemChr(needle, s).value] == needle
  {
  }

  lemma LaterPair(s: seq<Byte>, n: nat, i: nat, j: nat)
    requires n <= i < j < |s| && s[i] == CR && s[j] == LF
    ensures !FeedsFirst(s[n..])
  {
    assert s[n..][i - n] == CR && s[n..][j - n] == LF;
  }

  lemma PrependFirstLine(s: seq<Byte>, src: Source) returns (p: Source)
    requires MemChr(LF, s).Some? && src.buffered == [] && NeverFails(src)
    requires Stream(src) == s[MemChr(LF, s).value + 1..]
    ensures p.buffered == [] && NeverFails(p) && Stream(p) == s
    ensures Calls(p) != [] && Calls(p)[1..] == Calls(src)
  {
    var k := MemChr(LF, s).value;
    var head, tail := s[..k + 1], s[k + 1..];
    assert s == head + tail;
    MemChrOfConcat(LF, head, tail);
    assert head[k] == LF;
    p := Source([], [Data(head)] + src.fills);
    PrependLine(head, src.fills);
  }

  /**
   * The lines are independent of the chunking exactly when no carriage return
   * precedes a line feed.
   */
  lemma ChunkIndependence(s: seq<Byte>)
    ensures FeedsFirst(s) <==>
            forall src :: Stream(src) == s && NeverFails(src) ==> Calls(src) == SplitLines(s)
  {
    if FeedsFirst(s) {
      forall src | Stream(src) == s && NeverFails(src) ensures Calls(src) == SplitLines(s) {
        CallsAreLines(src);
      }
    } else {
      var a, b := ChunkDependent(s);
    }
  }
}
