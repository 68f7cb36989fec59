/** Messages on a connection: operation code, size, payload. A connection delivers the bytes that
    were sent, in order and whole. */
module Frames {
  import opened Wrappers
  import opened Bytes
  import opened ByteBuffer

  datatype Frame = Frame(op: nat, payload: seq<byte>) {
    predicate Fits() { op < WORD && |payload| < WORD }
  }

  function FrameBytes(f: Frame): seq<byte>
    requires f.Fits()
  {
    Word(f.op) + Word(|f.payload|) + f.payload
  }

  predicate AllFit(fs: seq<Frame>) { forall i :: 0 <= i < |fs| ==> fs[i].Fits() }

  /** What a list of messages looks like on the wire. */
  function Wire(fs: seq<Frame>): seq<byte>
    requires AllFit(fs)
  {
    if fs == [] then [] else FrameBytes(fs[0]) + Wire(fs[1..])
  }

  /** The first message of some bytes, if it is all there. */
  predicate Whole(b: seq<byte>) { |b| >= 8 && Number(b[4..8]) <= |b| - 8 }

  function First(b: seq<byte>): (f: Frame)
    requires Whole(b)
    ensures f.Fits()
  {
    Frame(Number(b[..4]), b[8..8 + Number(b[4..8])])
  }

  function Rest(b: seq<byte>): (r: seq<byte>)
    requires Whole(b)
    ensures |r| < |b|
  {
    b[8 + Number(b[4..8])..]
  }

  function Parse(b: seq<byte>): Option<seq<Frame>>
    decreases |b|
  {
    if b == [] then Some([])
    else if !Whole(b) then None
    else
      var r := Parse(Rest(b));
      if r.None? then None else Some([First(b)] + r.value)
  }

  // ------------------------------------------------------------------ both ways

  lemma FirstOfFrame(f: Frame, rest: seq<byte>)
    requires f.Fits()
    ensures var b := FrameBytes(f) + rest; Whole(b) && First(b) == f && Rest(b) == rest
  {
    var b := FrameBytes(f) + rest;
    var n := |f.payload|;
    NumberOfWord(f.op);
    NumberOfWord(n);
    assert b == Word(f.op) + (Word(n) + (f.payload + rest));
    assert b[..4] == Word(f.op);
    assert b[4..8] == Word(n);
    assert b[8..] == f.payload + rest;
    assert b[8..8 + n] == b[8..][..n] == f.payload;
    assert b[8 + n..] == b[8..][n..] == rest;
  }

  lemma FrameOfFirst(b: seq<byte>)
    requires Whole(b)
    ensures FrameBytes(First(b)) + Rest(b) == b
  {
    WordOfNumber(b[..4]);
    WordOfNumber(b[4..8]);
    var n := Number(b[4..8]);
    assert |b[8..8 + n]| == n;
    assert b == b[..4] + b[4..8] + b[8..8 + n] + b[8 + n..];
  }

  /** On the wire: a message with a small code and a short payload, and a short string. */
  lemma WireLayout(op: nat, payload: seq<byte>, text: seq<byte>)
    requires op < 256 && |payload| < 256 && |text| < 255
    ensures Wire([Frame(op, payload)]) == [op, 0, 0, 0, |payload|, 0, 0, 0] + payload
    ensures PackedString(text) == [|text| + 1, 0, 0, 0] + text + [0]
  {
    WordOfSmall(op);
    WordOfSmall(|payload|);
    WordOfSmall(|text| + 1);
    assert Wire([Frame(op, payload)]) == FrameBytes(Frame(op, payload)) + [];
  }

  /** Whatever messages were sent, their bytes parse back to the same messages. */
  lemma {:induction false} ParseOfWire(fs: seq<Frame>)
    requires AllFit(fs)
    ensures Parse(Wire(fs)) == Some(fs)
  {
    if fs != [] {
      FirstOfFrame(fs[0], Wire(fs[1..]));
      ParseOfWire(fs[1..]);
      assert fs == [fs[0]] + fs[1..];
    }
  }

  /** And bytes that parse are the bytes of those messages and of no others. */
  lemma {:induction false} WireOfParse(b: seq<byte>)
    requires Parse(b).Some?
    ensures AllFit(Parse(b).value) && Wire(Parse(b).value) == b
    decreases |b|
  {
    if b != [] {
      WireOfParse(Rest(b));
      FrameOfFirst(b);
      var fs := Parse(b).value;
      assert fs[1..] == Parse(Rest(b)).value;
    }
  }

  // ----------------------------------------------------------------- the connection

  class Connection {
    var incoming: seq<byte>

    constructor ()
      ensures incoming == []
    {
      incoming := [];
    }

    /** send */
    method Send(bytes: array<byte>)
      modifies this
      ensures incoming == old(incoming) + bytes[..]
    {
      incoming := incoming + bytes[..];
    }

    /** recv of n bytes that have arrived. */
    method Receive(n: nat) returns (bytes: array<byte>)
      requires n <= |incoming|
      modifies this
      ensures fresh(bytes) && bytes[..] == old(incoming)[..n] && incoming == old(incoming)[n..]
    {
      ghost var q := incoming;
      bytes := new byte[n](i requires 0 <= i < n reads this => if i < |incoming| then incoming[i] else 0);
      assert bytes[..] == q[..n];
      incoming := incoming[n..];
    }
  }

  /** __stream_create: the parts are copied one after another at a moving offset. */
  method CreateStream(op: nat, b: Buffer) returns (s: array<byte>)
    requires b.Valid() && op < WORD && b.size < WORD
    ensures fresh(s) && s[..] == FrameBytes(Frame(op, b.Contents()))
  {
    var w, n := Word(op), Word(b.size);
    var code := new byte[4](i requires 0 <= i < 4 => w[i]);
    var size := new byte[4](i requires 0 <= i < 4 => n[i]);
    assert code[..] == w && size[..] == n;
    s := new byte[4 + 4 + b.size];
    var offset := 0;
    Copy(code, 0, s, offset, 4);
    offset := offset + 4;
    assert s[..4] == w;
    Copy(size, 0, s, offset, 4);
    offset := offset + 4;
    assert s[..8] == w + n;
    Copy(b.stream, 0, s, offset, b.size);
    assert s[..] == s[..8] + b.stream[..];
  }

  /** stream_send_buffer */
  method SendBuffer(c: Connection, op: nat, b: Buffer)
    requires b.Valid() && op < WORD && b.size < WORD
    modifies c
    ensures c.incoming == old(c.incoming) + FrameBytes(Frame(op, b.Contents()))
  {
    var s := CreateStream(op, b);
    c.Send(s);
  }

  /** stream_recv_op_code */
  method ReceiveOpCode(c: Connection) returns (op: nat)
    requires |c.incoming| >= 4
    modifies c
    ensures op == Number(old(c.incoming)[..4]) && c.incoming == old(c.incoming)[4..]
  {
    var a := c.Receive(4);
    op := Number(a[..]);
  }

  /** stream_recv_buffer: the size is taken over; the bytes are too, unless the payload is empty.
      The buffer ends consistent except when an empty payload meets bytes that were there before. */
  method ReceiveBuffer(c: Connection, b: Buffer)
    requires b.Valid() && |c.incoming| >= 4 && Number(c.incoming[..4]) <= |c.incoming| - 4
    modifies c, b
    ensures b.stream == old(b.stream) || fresh(b.stream)
    ensures var n := Number(old(c.incoming)[..4]);
      && b.size == n && c.incoming == old(c.incoming)[4 + n..]
      && (n > 0 ==> b.Contents() == old(c.incoming)[4..4 + n])
      && (n == 0 ==> b.stream == old(b.stream))
      && (b.Valid() <==> n > 0 || old(b.size) == 0)
  {
    ghost var q := c.incoming;
    var a := c.Receive(4);
    b.size := Number(a[..]);
    if b.size > 0 {
      b.stream := c.Receive(b.size);
    }
    assert q[4..][..b.size] == q[4..4 + b.size] && q[4..][b.size..] == q[4 + b.size..];
  }

  /** One message off the connection. */
  method ReceiveFrame(c: Connection) returns (f: Frame)
    requires Whole(c.incoming)
    modifies c
    ensures f == First(old(c.incoming)) && c.incoming == Rest(old(c.incoming))
  {
    ghost var q := c.incoming;
    var op := ReceiveOpCode(c);
    assert q[4..][..4] == q[4..8];
    var b := new Buffer();
    ReceiveBuffer(c, b);
    ghost var n := Number(q[4..8]);
    assert q[4..][4..4 + n] == q[8..8 + n] && q[4..][4 + n..] == q[8 + n..];
    f := Frame(op, b.stream[..]);
  }

  /** Receives until nothing is left. */
  method ReceiveAll(c: Connection) returns (fs: seq<Frame>)
    requires Parse(c.incoming).Some?
    modifies c
    ensures Parse(old(c.incoming)) == Some(fs) && c.incoming == []
  {
    fs := [];
    assert Parse(c.incoming).Some? ==> fs + Parse(c.incoming).value == Parse(c.incoming).value;
    while c.incoming != []
      invariant Parse(c.incoming).Some? && Parse(old(c.incoming)) == Some(fs + Parse(c.incoming).value)
      decreases |c.incoming|
    {
      var f := ReceiveFrame(c);
      assert fs + ([f] + Parse(c.incoming).value) == (fs + [f]) + Parse(c.incoming).value;
      fs := fs + [f];
    }
    assert fs + [] == fs;
  }

  /** Sends a message from a buffer of its own. */
  method SendFrame(c: Connection, f: Frame)
    requires f.Fits()
    modifies c
    ensures c.incoming == old(c.incoming) + FrameBytes(f)
  {
    hide FrameBytes;
    var b := new Buffer();
    PutBytes(b, f.payload);
    SendBuffer(c, f.op, b);
    assert Frame(f.op, b.Contents()) == f;
  }

  method SendAll(c: Connection, fs: seq<Frame>)
    requires AllFit(fs)
    modifies c
    ensures c.incoming == old(c.incoming) + Wire(fs)
  {
    hide FrameBytes;
    var i := 0;
    assert fs[0..] == fs;
    while i < |fs|
      invariant 0 <= i <= |fs| && c.incoming + Wire(fs[i..]) == old(c.incoming) + Wire(fs)
    {
      assert fs[i..][0] == fs[i] && fs[i..][1..] == fs[i + 1..];
      ghost var q := c.incoming;
      SendFrame(c, fs[i]);
      assert q + (FrameBytes(fs[i]) + Wire(fs[i + 1..])) == (q + FrameBytes(fs[i])) + Wire(fs[i + 1..]);
      i := i + 1;
    }
  }

  /** Any list of messages sent over an idle connection is received as the same list. */
  method Exchange(c: Connection, fs: seq<Frame>) returns (got: seq<Frame>)
    requires AllFit(fs) && c.incoming == []
    modifies c
    ensures got == fs && c.incoming == []
  {
    SendAll(c, fs);
    assert [] + Wire(fs) == Wire(fs);
    ParseOfWire(fs);
    got := ReceiveAll(c);
  }
}
