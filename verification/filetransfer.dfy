/**
 * The file-transfer framing of src/webrtc.ts: the frames `sendFile` puts on the data
 * channel (a `file-metadata` text frame, the file's bytes in 16384-byte binary frames,
 * a `file-end` text frame) and the two-field state machine of
 * `handleDataChannelMessage` that reassembles them.
 */
module FileTransfer {
  import opened Wire

  newtype byte = x: int | 0 <= x < 256

  type Bytes = seq<byte>

  /** `chunkSize` in sendFile. */
  const ChunkSize: nat := 16384

  /** A `File`: its name, its MIME type (`file.type`) and its bytes; `file.size` is `|content|`. */
  datatype File = File(name: string, mimeType: string, content: Bytes)

  /** `currentFileMetadata` */
  datatype Metadata = Metadata(name: string, size: int, mimeType: string)

  /**
   * A text frame once `JSON.parse` has run on it. `Unparsable` stands for every text
   * on which the handler throws before touching any field: text `JSON.parse` rejects,
   * and text that parses to `null`, on which reading `.type` throws a TypeError.
   */
  datatype Control =
    | FileMetadata(name: string, size: int, mimeType: string)
    | FileEnd
    | OtherControl(kind: string)
    | Unparsable(raw: string)

  /** One data-channel message: a string or an ArrayBuffer. */
  datatype Frame = Text(control: Control) | Binary(chunk: Bytes)

  function Min(a: int, b: int): int
  {
    if a <= b then a else b
  }

  // ---------------------------------------------------------------------------
  // Sender side
  // ---------------------------------------------------------------------------

  /**
   * The chunks the `while (offset < file.size)` loop sends from `offset` on: each is
   * `file.slice(offset, offset + chunkSize)`, which stops at the end of the file.
   */
  function ChunksFrom(b: Bytes, offset: nat): (cs: seq<Bytes>)
    ensures forall i :: 0 <= i < |cs| ==> 0 < |cs[i]| <= ChunkSize
    decreases |b| - offset
  {
    if offset >= |b| then []
    else [b[offset .. Min(offset + ChunkSize, |b|)]] + ChunksFrom(b, offset + ChunkSize)
  }

  function Chunks(b: Bytes): seq<Bytes>
  {
    ChunksFrom(b, 0)
  }

  function Binaries(cs: seq<Bytes>): (fs: seq<Frame>)
    ensures |fs| == |cs|
    ensures forall i {:trigger fs[i]} :: 0 <= i < |cs| ==> fs[i] == Binary(cs[i])
  {
    if cs == [] then [] else [Binary(cs[0])] + Binaries(cs[1..])
  }

  /** The metadata frame `{type:'file-metadata', name, size, mimeType}` for `f`. */
  function MetadataFrame(f: File): Frame
  {
    Text(FileMetadata(f.name, |f.content|, f.mimeType))
  }

  /** Every frame sendFile emits for `f`, in order. */
  function Frames(f: File): (fs: seq<Frame>)
    ensures |fs| >= 2 && fs[0] == Text(FileMetadata(f.name, |f.content|, f.mimeType)) && fs[|fs| - 1] == Text(FileEnd)
    ensures forall i :: 0 < i < |fs| - 1 ==> fs[i].Binary? && 0 < |fs[i].chunk| <= ChunkSize
  {
    [MetadataFrame(f)] + Binaries(Chunks(f.content)) + [Text(FileEnd)]
  }

  /** The frames of several files sent one after the other on one channel. */
  function FramesOf(fs: seq<File>): seq<Frame>
  {
    if fs == [] then [] else Frames(fs[0]) + FramesOf(fs[1..])
  }

  function Concat(cs: seq<Bytes>): Bytes
  {
    if cs == [] then [] else cs[0] + Concat(cs[1..])
  }

  /** Reading the chunks back in order gives the bytes from `offset` on. */
  lemma {:induction false} ChunksReassemble(b: Bytes, offset: nat)
    requires offset <= |b|
    ensures Concat(ChunksFrom(b, offset)) == b[offset..]
    decreases |b| - offset
  {
    if offset < |b| {
      var next := offset + ChunkSize;
      var head := b[offset .. Min(next, |b|)];
      var rest := ChunksFrom(b, next);
      var cs := ChunksFrom(b, offset);
      assert cs == [head] + rest;
      assert Concat(cs) == head + Concat(rest) by {
        assert cs[0] == head && cs[1..] == rest;
      }
      if next < |b| {
        ChunksReassemble(b, next);
        assert head == b[offset..next];
        assert b[offset..] == b[offset..next] + b[next..];
      } else {
        assert rest == [];
        assert head == b[offset..];
        assert head + [] == head;
      }
    }
  }

  /**
   * Every chunk is 16384 bytes except the last, which is shorter or equal and never
   * empty; there are ceil((|b| - offset) / 16384) of them, none for an empty rest.
   */
  lemma {:induction false} ChunkSizes(b: Bytes, offset: nat)
    ensures var cs := ChunksFrom(b, offset);
            && |cs| == (if offset >= |b| then 0 else (|b| - offset + ChunkSize - 1) / ChunkSize)
            && (forall i :: 0 <= i < |cs| - 1 ==> |cs[i]| == ChunkSize)
            && (forall i :: 0 <= i < |cs| ==> 0 < |cs[i]| <= ChunkSize)
    decreases |b| - offset
  {
    if offset < |b| {
      var cs := ChunksFrom(b, offset);
      var rest := ChunksFrom(b, offset + ChunkSize);
      ChunkSizes(b, offset + ChunkSize);
      assert cs == [b[offset .. Min(offset + ChunkSize, |b|)]] + rest;
      if offset + ChunkSize < |b| {
        assert |b[offset .. Min(offset + ChunkSize, |b|)]| == ChunkSize;
        assert (|b| - offset + ChunkSize - 1) / ChunkSize == 1 + (|b| - (offset + ChunkSize) + ChunkSize - 1) / ChunkSize;
        forall i | 0 <= i < |cs| ensures 0 < |cs[i]| <= ChunkSize && (i < |cs| - 1 ==> |cs[i]| == ChunkSize)
        {
          if i > 0 {
            assert cs[i] == rest[i - 1];
          }
        }
      } else {
        assert rest == [];
        assert (|b| - offset + ChunkSize - 1) / ChunkSize == 1;
      }
    }
  }

  /**
   * The frames sendFile emits: first one metadata frame carrying name, size and MIME
   * type, last one `file-end`, and between them only binary frames, as many as
   * there are chunks, which concatenate to the file's bytes.
   */
  lemma FramesShape(f: File)
    ensures var fs := Frames(f);
            var n := |Chunks(f.content)|;
            && |fs| == n + 2
            && fs[0] == Text(FileMetadata(f.name, |f.content|, f.mimeType))
            && fs[|fs| - 1] == Text(FileEnd)
            && (forall i :: 1 <= i < |fs| - 1 ==> fs[i] == Binary(Chunks(f.content)[i - 1]))
            && Concat(Chunks(f.content)) == f.content
  {
    ChunksReassemble(f.content, 0);
  }

  // ---------------------------------------------------------------------------
  // Receiver side
  // ---------------------------------------------------------------------------

  /** The receiver's two fields: `fileBuffer` and `currentFileMetadata`. */
  datatype Receiver = Receiver(buffer: seq<Bytes>, pending: Option<Metadata>)

  const Idle: Receiver := Receiver([], None)

  /** What one frame leads to: nothing visible, one delivered file, or a JSON.parse throw. */
  datatype Outcome = Absorbed | Delivered(file: File) | ParseError

  /**
   * handleDataChannelMessage. A metadata frame starts a new file with an empty buffer;
   * a binary frame is appended whatever the state; `file-end` with metadata pending
   * delivers the buffer's bytes under the pending name and MIME type and clears both
   * fields; `file-end` with nothing pending and any other type change nothing. Text
   * that does not parse throws before any field is touched.
   */
  function Receive(rx: Receiver, frame: Frame): (r: (Receiver, Outcome))
    ensures r.1.Delivered? ==> r.0 == Idle && r.1.file.content == Concat(rx.buffer)
    ensures !r.1.Delivered? ==> r.0.pending == rx.pending || (frame.Text? && frame.control.FileMetadata?)
    ensures r.1.ParseError? ==> r.0 == rx
  {
    match frame
    case Binary(chunk) => (rx.(buffer := rx.buffer + [chunk]), Absorbed)
    case Text(Unparsable(_)) => (rx, ParseError)
    case Text(FileMetadata(name, size, mimeType)) => (Receiver([], Some(Metadata(name, size, mimeType))), Absorbed)
    case Text(FileEnd) =>
      if rx.pending.Some? then
        var m := rx.pending.value;
        (Idle, Delivered(File(m.name, m.mimeType, Concat(rx.buffer))))
      else (rx, Absorbed)
    case Text(OtherControl(_)) => (rx, Absorbed)
  }

  /**
   * One frame: a file is delivered exactly on `file-end` with metadata pending, and
   * then both fields are cleared; a binary frame is appended even with no metadata
   * pending; a metadata frame discards whatever was buffered; `file-end` with nothing
   * pending, other types and text that does not parse leave both fields as they were.
   */
  lemma ReceiveRules(rx: Receiver, frame: Frame)
    ensures var r := Receive(rx, frame);
            && (r.1.Delivered? <==> frame == Text(FileEnd) && rx.pending.Some?)
            && (r.1.Delivered? ==> r.0 == Idle && r.1.file.content == Concat(rx.buffer)
                                   && r.1.file.name == rx.pending.value.name
                                   && r.1.file.mimeType == rx.pending.value.mimeType)
            && (r.1.ParseError? <==> frame.Text? && frame.control.Unparsable?)
            && (frame.Binary? ==> r.0 == Receiver(rx.buffer + [frame.chunk], rx.pending))
            && (frame.Text? && frame.control.FileMetadata? ==>
                  r.0.buffer == [] && r.0.pending == Some(Metadata(frame.control.name, frame.control.size, frame.control.mimeType)))
            && (frame.Text? && frame.control.OtherControl? ==> r.0 == rx)
            && (frame.Text? && frame.control.Unparsable? ==> r.0 == rx)
            && (frame == Text(FileEnd) && rx.pending.None? ==> r.0 == rx)
  {
  }

  /** Feed frames one by one; the second component lists the files delivered, in order. */
  function ReceiveAll(rx: Receiver, frames: seq<Frame>): (Receiver, seq<File>)
    decreases |frames|
  {
    if frames == [] then (rx, [])
    else
      var step := Receive(rx, frames[0]);
      var rest := ReceiveAll(step.0, frames[1..]);
      (rest.0, (if step.1.Delivered? then [step.1.file] else []) + rest.1)
  }

  /** Feeding two runs of frames is feeding the first, then the second from where it left off. */
  lemma {:induction false} ReceiveAllAppend(rx: Receiver, a: seq<Frame>, b: seq<Frame>)
    ensures var first := ReceiveAll(rx, a);
            var second := ReceiveAll(first.0, b);
            ReceiveAll(rx, a + b) == (second.0, first.1 + second.1)
    decreases |a|
  {
    if a != [] {
      var step := Receive(rx, a[0]);
      var head: seq<File> := if step.1.Delivered? then [step.1.file] else [];
      assert (a + b)[0] == a[0] && (a + b)[1..] == a[1..] + b;
      ReceiveAllAppend(step.0, a[1..], b);
      var mid := ReceiveAll(step.0, a[1..]);
      var second := ReceiveAll(mid.0, b);
      assert ReceiveAll(rx, a) == (mid.0, head + mid.1);
      assert ReceiveAll(rx, a + b) == (second.0, head + (mid.1 + second.1));
      assert head + (mid.1 + second.1) == (head + mid.1) + second.1;
    } else {
      assert a + b == b;
      assert [] + ReceiveAll(rx, b).1 == ReceiveAll(rx, b).1;
    }
  }

  /** Binary frames only ever extend the buffer, in order, and deliver nothing. */
  /** A binary frame at the head of a run is appended and delivers nothing. */
  lemma ReceiveBinaryHead(rx: Receiver, chunk: Bytes, rest: seq<Frame>)
    ensures ReceiveAll(rx, [Binary(chunk)] + rest).0 == ReceiveAll(rx.(buffer := rx.buffer + [chunk]), rest).0
    ensures ReceiveAll(rx, [Binary(chunk)] + rest).1 == ReceiveAll(rx.(buffer := rx.buffer + [chunk]), rest).1
  {
    var fs := [Binary(chunk)] + rest;
    assert fs[0] == Binary(chunk) && fs[1..] == rest;
  }

  lemma {:induction false} ReceiveChunks(rx: Receiver, cs: seq<Bytes>)
    ensures ReceiveAll(rx, Binaries(cs)).0 == rx.(buffer := rx.buffer + cs)
    ensures ReceiveAll(rx, Binaries(cs)).1 == []
    decreases |cs|
  {
    if cs != [] {
      var rx' := rx.(buffer := rx.buffer + [cs[0]]);
      assert Binaries(cs) == [Binary(cs[0])] + Binaries(cs[1..]);
      ReceiveBinaryHead(rx, cs[0], Binaries(cs[1..]));
      ReceiveChunks(rx', cs[1..]);
      assert rx'.buffer + cs[1..] == rx.buffer + cs;
    } else {
      assert rx.buffer + cs == rx.buffer;
    }
  }

  /**
   * Round trip: whatever state the receiver is in, the frames of `f` deliver exactly
   * one file with the same name, MIME type and bytes, and leave the receiver idle.
   */
  lemma RoundTrip(rx: Receiver, f: File)
    ensures ReceiveAll(rx, Frames(f)).0 == Idle
    ensures ReceiveAll(rx, Frames(f)).1 == [f]
  {
    var meta := Metadata(f.name, |f.content|, f.mimeType);
    var started := Receiver([], Some(meta));
    var cs := Chunks(f.content);
    ReceiveAllAppend(rx, [MetadataFrame(f)], Binaries(cs) + [Text(FileEnd)]);
    assert Frames(f) == [MetadataFrame(f)] + (Binaries(cs) + [Text(FileEnd)]);
    assert [MetadataFrame(f)][1..] == [];
    assert Receive(rx, MetadataFrame(f)) == (started, Absorbed);
    assert ReceiveAll(started, []) == (started, []);
    assert ReceiveAll(rx, [MetadataFrame(f)]).0 == started;
    assert ReceiveAll(rx, [MetadataFrame(f)]).1 == [];
    ReceiveAllAppend(started, Binaries(cs), [Text(FileEnd)]);
    ReceiveChunks(started, cs);
    assert [] + cs == cs;
    ChunksReassemble(f.content, 0);
    assert f.content[0..] == f.content;
  }

  /** Files sent one after another on one channel arrive as the same files, in order. */
  lemma {:induction false} StreamRoundTrip(rx: Receiver, fs: seq<File>)
    ensures ReceiveAll(rx, FramesOf(fs)).0 == if fs == [] then rx else Idle
    ensures ReceiveAll(rx, FramesOf(fs)).1 == fs
    decreases |fs|
  {
    if fs != [] {
      ReceiveAllAppend(rx, Frames(fs[0]), FramesOf(fs[1..]));
      RoundTrip(rx, fs[0]);
      StreamRoundTrip(Idle, fs[1..]);
      assert [fs[0]] + fs[1..] == fs;
    }
  }
}
