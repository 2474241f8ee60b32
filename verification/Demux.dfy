/**
 stripDockerLogHeaders and the stream format it reads: the section "Stream format" of the container
 attach endpoint in the Docker Engine API. A frame is a header of eight bytes, the last four of which
 hold the payload's length, most significant byte first, and the payload.
 */
module Demux {

  type byte = b: int | 0 <= b < 256

  type bytes = seq<byte>

  // The four bytes before the length: the stream's number and padding.
  datatype Frame = Frame(tag: bytes, payload: bytes) {
    predicate Valid() {
      |tag| == 4 && |payload| < 0x1_0000_0000
    }
  }

  type Frames = fs: seq<Frame> | forall f :: f in fs ==> f.Valid()

  // ---------- the sender ----------

  // The number's last width digits to the base 256, the most significant first.
  function BigEndian(n: nat, width: nat): (digits: bytes)
    ensures |digits| == width
  {
    if width == 0 then [] else BigEndian(n / 0x100, width - 1) + [n % 0x100]
  }

  function Encode(f: Frame): bytes
    requires f.Valid()
  {
    f.tag + BigEndian(|f.payload|, 4) + f.payload
  }

  function EncodeAll(fs: Frames): bytes {
    if fs == [] then [] else Encode(fs[0]) + EncodeAll(fs[1..])
  }

  function Payloads(fs: seq<Frame>): bytes {
    if fs == [] then [] else fs[0].payload + Payloads(fs[1..])
  }

  // ---------- the receiver ----------

  // a<<24 | b<<16 | c<<8 | d: the shifted bytes do not overlap, so that or-ing them adds them.
  function Number(a: byte, b: byte, c: byte, d: byte): nat {
    ((a * 0x100 + b) * 0x100 + c) * 0x100 + d
  }

  // The length in the header at the given index.
  function Size(logs: bytes, at: nat): nat
    requires at + 8 <= |logs|
  {
    Number(logs[at + 4], logs[at + 5], logs[at + 6], logs[at + 7])
  }

  /** What is left of a byte string once its headers are gone, and what a cut or malformed end becomes. */
  function Strip(logs: bytes): bytes {
    if |logs| < 8 then logs
    else
      var size := Size(logs, 0);
      if 8 + size <= |logs| then logs[8..8 + size] + Strip(logs[8 + size..])
      else logs[8..]
  }

  method StripDockerLogHeaders(logs: bytes) returns (result: bytes)
    ensures result == Strip(logs)
  {
    if |logs| == 0 {
      return logs;
    }
    result := [];
    ghost var all := Strip(logs);
    var i := 0;
    assert logs[0..] == logs;
    while i < |logs|
      invariant i <= |logs|
      invariant result + Strip(logs[i..]) == all
      decreases |logs| - i
    {
      if i + 8 > |logs| {
        StripEnd(logs, i);
        result := result + logs[i..];
        return;
      }
      var header := i;
      var end := header + 8 + Size(logs, header);
      i := header + 8;
      Turn(logs, header, i, end, result);
      if end <= |logs| {
        result := result + logs[i..end];
        i := end;
      } else {
        result := result + logs[i..];
        return;
      }
    }
    StripEnd(logs, i);
  }

  // What one turn adds to the result, and leaves to the next turns.
  lemma Turn(logs: bytes, header: nat, from: nat, to: nat, result: bytes)
    requires from == header + 8 <= |logs| && to == from + Size(logs, header)
    ensures to <= |logs| ==> result + Strip(logs[header..]) == result + logs[from..to] + Strip(logs[to..])
    ensures to > |logs| ==> result + Strip(logs[header..]) == result + logs[from..]
  {
    StripOnce(logs, header, from, to);
    if to <= |logs| {
      Associate(result, logs[from..to], Strip(logs[to..]));
    }
  }

  lemma Associate(a: bytes, b: bytes, c: bytes)
    ensures a + (b + c) == a + b + c
  {
  }

  lemma StripEnd(logs: bytes, i: nat)
    requires i <= |logs| < i + 8
    ensures Strip(logs[i..]) == logs[i..]
    ensures i == |logs| ==> logs[i..] == []
  {
  }

  lemma StripOnce(logs: bytes, header: nat, from: nat, to: nat)
    requires from == header + 8 <= |logs| && to == from + Size(logs, header)
    ensures to <= |logs| ==> Strip(logs[header..]) == logs[from..to] + Strip(logs[to..])
    ensures to > |logs| ==> Strip(logs[header..]) == logs[from..]
  {
    var rest := logs[header..];
    SameSize(logs, header);
    if to <= |logs| {
      assert rest[8..to - header] == logs[from..to];
      assert rest[to - header..] == logs[to..];
    } else {
      assert rest[8..] == logs[from..];
    }
  }

  lemma SameSize(logs: bytes, i: nat)
    requires i + 8 <= |logs|
    ensures Size(logs[i..], 0) == Size(logs, i)
  {
  }

  // ---------- round trip ----------

  lemma FourDigits(n: nat)
    ensures BigEndian(n, 4)
      == [n / 0x100 / 0x100 / 0x100 % 0x100, n / 0x100 / 0x100 % 0x100, n / 0x100 % 0x100, n % 0x100]
  {
    assert BigEndian(n / 0x100 / 0x100 / 0x100, 1) == [] + [n / 0x100 / 0x100 / 0x100 % 0x100];
    assert BigEndian(n / 0x100 / 0x100, 2) == BigEndian(n / 0x100 / 0x100 / 0x100, 1) + [n / 0x100 / 0x100 % 0x100];
    assert BigEndian(n / 0x100, 3) == BigEndian(n / 0x100 / 0x100, 2) + [n / 0x100 % 0x100];
  }

  lemma SizeOfLength(n: nat)
    requires n < 0x1_0000_0000
    ensures var b := BigEndian(n, 4); Number(b[0], b[1], b[2], b[3]) == n
  {
    FourDigits(n);
  }

  lemma StripFrame(f: Frame, rest: bytes)
    requires f.Valid()
    ensures Strip(Encode(f) + rest) == f.payload + Strip(rest)
  {
    var logs := Encode(f) + rest;
    SizeOfLength(|f.payload|);
    assert logs[4..8] == BigEndian(|f.payload|, 4);
    assert forall k :: 0 <= k < 4 ==> logs[4 + k] == logs[4..8][k];
    assert Size(logs, 0) == |f.payload|;
    assert logs[8..8 + |f.payload|] == f.payload;
    assert logs[8 + |f.payload|..] == rest;
  }

  /** Whatever follows a well-formed stream, the stream is stripped to its payloads and the rest on its own. */
  lemma {:induction false} StripStream(fs: Frames, rest: bytes)
    ensures Strip(EncodeAll(fs) + rest) == Payloads(fs) + Strip(rest)
  {
    if fs == [] {
      assert EncodeAll(fs) + rest == rest;
    } else {
      StripStream(fs[1..], rest);
      StripFrame(fs[0], EncodeAll(fs[1..]) + rest);
      Associate(Encode(fs[0]), EncodeAll(fs[1..]), rest);
      Associate(fs[0].payload, Payloads(fs[1..]), Strip(rest));
    }
  }

  lemma {:induction false} StreamLength(fs: Frames)
    ensures |EncodeAll(fs)| == |Payloads(fs)| + 8 * |fs|
  {
    if fs != [] {
      StreamLength(fs[1..]);
    }
  }

  /** Round trip: stripping an encoded stream gives the payloads, eight bytes a frame shorter. */
  lemma RoundTrip(fs: Frames)
    ensures Strip(EncodeAll(fs)) == Payloads(fs)
    ensures |Strip(EncodeAll(fs))| == |EncodeAll(fs)| - 8 * |fs|
  {
    StripStream(fs, []);
    assert EncodeAll(fs) + [] == EncodeAll(fs);
    StreamLength(fs);
  }

  /** Stripping distributes over appending to a well-formed stream. */
  lemma Concatenation(fs: Frames, more: bytes)
    ensures Strip(EncodeAll(fs) + more) == Strip(EncodeAll(fs)) + Strip(more)
  {
    StripStream(fs, more);
    RoundTrip(fs);
  }

  // ---------- truncated and arbitrary input ----------

  /** A stream cut inside a header: the complete payloads, then the bytes of the header that arrived. */
  lemma CutInHeader(fs: Frames, f: Frame, n: nat)
    requires f.Valid() && n < 8
    ensures Strip(EncodeAll(fs) + Encode(f)[..n]) == Payloads(fs) + Encode(f)[..n]
  {
    StripStream(fs, Encode(f)[..n]);
  }

  /** A stream cut inside a payload: what arrived of the payloads, and nothing else. */
  lemma CutInPayload(fs: Frames, f: Frame, n: nat)
    requires f.Valid() && 8 <= n <= |Encode(f)|
    ensures Strip(EncodeAll(fs) + Encode(f)[..n]) == Payloads(fs) + f.payload[..n - 8]
    ensures Payloads(fs) + f.payload[..n - 8] <= Payloads(fs) + f.payload
  {
    var cut := Encode(f)[..n];
    StripStream(fs, cut);
    SizeOfLength(|f.payload|);
    assert Encode(f)[4..8] == BigEndian(|f.payload|, 4);
    assert forall k :: 0 <= k < 4 ==> cut[4 + k] == Encode(f)[4..8][k];
    assert Size(cut, 0) == |f.payload|;
    assert cut[8..] == f.payload[..n - 8];
    if n == |Encode(f)| {
      assert cut[8..8 + |f.payload|] == f.payload;
      assert cut[n..] == [];
    }
  }

  // What the two fallback branches make of the end of an input.
  function Leftover(tail: bytes): bytes {
    if |tail| < 8 then tail else tail[8..]
  }

  // The end of an input that holds no complete frame.
  predicate Incomplete(tail: bytes) {
    |tail| < 8 || 8 + Size(tail, 0) > |tail|
  }

  function Cut(logs: bytes): (Frames, bytes) {
    if Incomplete(logs) then ([], logs)
    else
      var size := Size(logs, 0);
      SizeBound(logs);
      var (fs, tail) := Cut(logs[8 + size..]);
      ([Frame(logs[..4], logs[8..8 + size])] + fs, tail)
  }

  lemma SizeBound(logs: bytes)
    requires |logs| >= 8
    ensures Size(logs, 0) < 0x1_0000_0000
  {
  }

  lemma LastDigit(q: nat, d: byte)
    ensures (q * 0x100 + d) / 0x100 == q && (q * 0x100 + d) % 0x100 == d
  {
  }

  lemma NumberToBytes(a: byte, b: byte, c: byte, d: byte)
    ensures var n := Number(a, b, c, d); n < 0x1_0000_0000 && BigEndian(n, 4) == [a, b, c, d]
  {
    FourDigits(Number(a, b, c, d));
    LastDigit((a * 0x100 + b) * 0x100 + c, d);
    LastDigit(a * 0x100 + b, c);
    LastDigit(a, b);
  }

  lemma LengthOfSize(logs: bytes)
    requires |logs| >= 8
    ensures Size(logs, 0) < 0x1_0000_0000 && BigEndian(Size(logs, 0), 4) == logs[4..8]
  {
    NumberToBytes(logs[4], logs[5], logs[6], logs[7]);
  }

  lemma FirstFrame(logs: bytes) returns (f: Frame)
    requires !Incomplete(logs)
    ensures var size := Size(logs, 0);
      && f == Frame(logs[..4], logs[8..8 + size]) && f.Valid()
      && logs == Encode(f) + logs[8 + size..] && Strip(logs) == f.payload + Strip(logs[8 + size..])
  {
    var size := Size(logs, 0);
    LengthOfSize(logs);
    f := Frame(logs[..4], logs[8..8 + size]);
    assert Encode(f) == logs[..8 + size];
  }

  lemma Prepend(f: Frame, fs: Frames, tail: bytes)
    requires f.Valid()
    ensures EncodeAll([f] + fs) + tail == Encode(f) + (EncodeAll(fs) + tail)
    ensures Payloads([f] + fs) == f.payload + Payloads(fs)
  {
    assert ([f] + fs)[1..] == fs;
  }

  /**
   Any input at all is a stream of complete frames and an incomplete end, in one way only; stripping gives
   the payloads, then the end without its header if it has a whole one.
   */
  lemma {:induction false} AnyInput(logs: bytes)
    ensures var (fs, tail) := Cut(logs);
      && logs == EncodeAll(fs) + tail && Incomplete(tail)
      && Strip(logs) == Payloads(fs) + Leftover(tail)
    decreases |logs|
  {
    if !Incomplete(logs) {
      var rest := logs[8 + Size(logs, 0)..];
      AnyInput(rest);
      var (fs, tail) := Cut(rest);
      var f := FirstFrame(logs);
      Prepend(f, fs, tail);
      Associate(f.payload, Payloads(fs), Leftover(tail));
    }
  }

  lemma CutFrame(f: Frame, rest: bytes)
    requires f.Valid()
    ensures var logs := Encode(f) + rest;
      && !Incomplete(logs) && 8 + Size(logs, 0) == |Encode(f)| && logs[8 + Size(logs, 0)..] == rest
      && Frame(logs[..4], logs[8..8 + Size(logs, 0)]) == f
  {
    var logs := Encode(f) + rest;
    SizeOfLength(|f.payload|);
    assert logs[4..8] == BigEndian(|f.payload|, 4);
    assert forall k :: 0 <= k < 4 ==> logs[4 + k] == logs[4..8][k];
    assert Size(logs, 0) == |f.payload|;
    assert logs[..4] == f.tag && logs[8..8 + |f.payload|] == f.payload;
  }

  /** ... and only one: the frames and the incomplete end can be told from the bytes. */
  lemma {:induction false} OneWayOnly(fs: Frames, tail: bytes)
    requires Incomplete(tail)
    ensures Cut(EncodeAll(fs) + tail) == (fs, tail)
  {
    if fs == [] {
      assert EncodeAll(fs) + tail == tail;
    } else {
      var rest := EncodeAll(fs[1..]) + tail;
      Associate(Encode(fs[0]), EncodeAll(fs[1..]), tail);
      CutFrame(fs[0], rest);
      OneWayOnly(fs[1..], tail);
      assert [fs[0]] + fs[1..] == fs;
    }
  }

  /** The output is never longer than the input, and as long only when no header was found. */
  lemma {:induction false} NeverLonger(logs: bytes)
    ensures |Strip(logs)| <= |logs|
    ensures |Strip(logs)| == |logs| <==> |logs| < 8
    decreases |logs|
  {
    if |logs| >= 8 && 8 + Size(logs, 0) <= |logs| {
      NeverLonger(logs[8 + Size(logs, 0)..]);
    }
  }
}
