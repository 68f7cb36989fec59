/** t_buffer: bytes are packed at the end and unpacked from the front. */
module ByteBuffer {
  import opened Bytes

  /** Copies n bytes of src, from position i on, to position j of dest (memcpy). */
  method Copy(src: array<byte>, i: nat, dest: array<byte>, j: nat, n: nat)
    requires src != dest && i + n <= src.Length && j + n <= dest.Length
    modifies dest
    ensures dest[..] == old(dest[..j]) + src[i..i + n] + old(dest[j + n..])
  {
    var k := 0;
    while k < n
      invariant 0 <= k <= n
      invariant dest[..] == old(dest[..j]) + src[i..i + k] + old(dest[j + k..])
    {
      dest[j + k] := src[i + k];
      k := k + 1;
    }
  }

  /** Moves the bytes from position n on to the front of the same array (memmove). */
  method MoveDown(a: array<byte>, n: nat)
    requires n <= a.Length
    modifies a
    ensures a[..a.Length - n] == old(a[n..])
  {
    var k := 0;
    while k < a.Length - n
      invariant 0 <= k <= a.Length - n
      invariant a[..k] == old(a[n..])[..k]
      invariant a[k..] == old(a[k..])
    {
      a[k] := a[k + n];
      k := k + 1;
    }
  }

  /** realloc: the first bytes are kept, as many as fit. */
  method Resize(a: array<byte>, n: nat) returns (r: array<byte>)
    ensures fresh(r) && r.Length == n
    ensures r[..if n < a.Length then n else a.Length] == a[..if n < a.Length then n else a.Length]
  {
    r := new byte[n];
    var kept := if n < a.Length then n else a.Length;
    Copy(a, 0, r, 0, kept);
  }

  class Buffer {
    var stream: array<byte>
    var size: nat

    ghost predicate Valid()
      reads this
    {
      stream.Length == size
    }

    ghost function Contents(): seq<byte>
      reads this, stream
    {
      stream[..]
    }

    constructor ()
      ensures Valid() && Contents() == [] && fresh(stream)
    {
      size := 0;
      stream := new byte[0];
    }

    /** buffer_pack */
    method Pack(src: array<byte>, n: nat)
      requires Valid() && n <= src.Length
      modifies this
      ensures Valid() && fresh(stream) && Contents() == old(Contents()) + src[..n]
    {
      var grown := Resize(stream, size + n);
      Copy(src, 0, grown, size, n);
      stream := grown;
      size := size + n;
    }

    /** buffer_unpack: the caller asks for no more than there is. */
    method Unpack(dest: array<byte>, n: nat)
      requires Valid() && n <= size && n <= dest.Length && dest != stream
      modifies this, stream, dest
      ensures Valid() && fresh(stream) && Contents() == old(Contents())[n..]
      ensures dest[..] == old(Contents())[..n] + old(dest[n..])
    {
      Copy(stream, 0, dest, 0, n);
      size := size - n;
      MoveDown(stream, n);
      stream := Resize(stream, size);
    }

    method PackWord(w: nat)
      requires Valid() && w < WORD
      modifies this
      ensures Valid() && fresh(stream) && Contents() == old(Contents()) + Word(w)
    {
      var b := Word(w);
      var a := new byte[4](i requires 0 <= i < 4 => b[i]);
      assert a[..4] == b;
      Pack(a, 4);
    }

    method UnpackWord() returns (w: nat)
      requires Valid() && size >= 4
      modifies this, stream
      ensures Valid() && fresh(stream) && Contents() == old(Contents())[4..]
      ensures w == Number(old(Contents())[..4])
    {
      var a := new byte[4];
      Unpack(a, 4);
      w := Number(a[..]);
    }

    /** buffer_pack_string: the length, terminator included, and then the bytes up to it. */
    method PackString(s: array<byte>)
      requires Valid() && 0 in s[..] && s.Length < WORD && s != stream
      modifies this
      ensures Valid() && fresh(stream)
      ensures Contents() == old(Contents()) + PackedString(CString(s[..]))
    {
      var n := Strlen(s);
      assert s[..n + 1] == CString(s[..]) + [0];
      PackWord(n + 1);
      Pack(s, n + 1);
    }

    /** buffer_unpack_string: the stated length must be within the buffer. */
    method UnpackString() returns (s: array<byte>)
      requires Valid() && size >= 4 && Number(Contents()[..4]) <= size - 4
      modifies this, stream
      ensures Valid() && fresh(stream) && fresh(s) && s != stream
      ensures var n := Number(old(Contents())[..4]);
        s[..] == old(Contents())[4..4 + n] && Contents() == old(Contents())[4 + n..]
    {
      ghost var q := Contents();
      var n := UnpackWord();
      s := new byte[n];
      Unpack(s, n);
      assert q[4..][..n] == q[4..4 + n] && q[4..][n..] == q[4 + n..];
    }
  }

  // ---------------------------------------------------------------------- strings

  /** The string a NUL-terminated array holds: its bytes before the first NUL. */
  function CString(a: seq<byte>): (s: seq<byte>)
    requires 0 in a
    ensures 0 !in s && |s| < |a| && a[..|s|] == s && a[|s|] == 0
  {
    if a[0] == 0 then [] else
      assert a == [a[0]] + a[1..];
      [a[0]] + CString(a[1..])
  }

  lemma {:induction false} CStringAt(a: seq<byte>, n: nat)
    requires n < |a| && a[n] == 0 && 0 !in a[..n]
    ensures CString(a) == a[..n]
  {
    if n > 0 {
      assert a[..n][0] == a[0];
      assert a[..n] == [a[0]] + a[1..][..n - 1];
      CStringAt(a[1..], n - 1);
    }
  }

  /** strlen */
  method Strlen(a: array<byte>) returns (n: nat)
    requires 0 in a[..]
    ensures n == |CString(a[..])| && n < a.Length && a[..n] == CString(a[..]) && a[n] == 0
  {
    ghost var end :| 0 <= end < a.Length && a[..][end] == 0;
    n := 0;
    while a[n] != 0
      invariant 0 <= n <= end && 0 !in a[..n]
      decreases end - n
    {
      n := n + 1;
    }
    CStringAt(a[..], n);
  }

  /** What a string packs to. */
  function PackedString(s: seq<byte>): seq<byte>
    requires |s| + 1 < WORD
  {
    Word(|s| + 1) + s + [0]
  }

  /** An array of data and a terminator holds that data exactly when the data has no NUL. */
  lemma DataIsString(data: seq<byte>)
    ensures CString(data + [0]) == data <==> 0 !in data
  {
    if 0 !in data {
      assert (data + [0])[..|data|] == data;
      CStringAt(data + [0], |data|);
    }
  }

  /** What UnpackString finds where a string was packed. */
  lemma PackedStringFront(s: seq<byte>, rest: seq<byte>)
    requires |s| + 1 < WORD
    ensures var q := PackedString(s) + rest;
      && |q| >= 4 && Number(q[..4]) == |s| + 1 && |s| + 1 <= |q| - 4
      && q[4..4 + |s| + 1] == s + [0] && q[4 + |s| + 1..] == rest
  {
    var q := PackedString(s) + rest;
    NumberOfWord(|s| + 1);
    assert q == Word(|s| + 1) + (s + [0] + rest);
    assert q[..4] == Word(|s| + 1);
    assert q[4..] == s + [0] + rest;
    assert q[4..4 + |s| + 1] == q[4..][..|s| + 1] == s + [0];
    assert q[4 + |s| + 1..] == q[4..][|s| + 1..] == rest;
  }

  /** Data stored with a terminator, packed and unpacked, comes back as the same string exactly
      when it has no NUL; otherwise the part before the first one does. */
  method StringRoundTrip(b: Buffer, data: array<byte>) returns (s: array<byte>)
    requires b.Valid() && b.Contents() == [] && data.Length > 0 && data.Length < WORD && data != b.stream
    requires data[data.Length - 1] == 0
    modifies b, b.stream
    ensures b.Valid() && b.Contents() == []
    ensures 0 in s[..] && 0 in old(data[..]) && CString(s[..]) == CString(old(data[..]))
    ensures CString(s[..]) == old(data[..data.Length - 1]) <==> 0 !in old(data[..data.Length - 1])
  {
    ghost var raw := data[..data.Length - 1];
    assert data[..] == raw + [0];
    b.PackString(data);
    ghost var c := CString(data[..]);
    PackedStringFront(c, []);
    assert PackedString(c) + [] == PackedString(c) && [] + PackedString(c) == PackedString(c);
    s := b.UnpackString();
    assert s[..] == c + [0];
    DataIsString(c);
    DataIsString(raw);
  }

  // ----------------------------------------------------------------- a byte queue

  datatype Op = Put(bytes: seq<byte>) | Take(n: nat)

  function AllPut(ops: seq<Op>): seq<byte> {
    if ops == [] then [] else (if ops[0].Put? then ops[0].bytes else []) + AllPut(ops[1..])
  }

  /** No unpack asks for more than there is at that point, starting with k bytes. */
  predicate InBounds(k: nat, ops: seq<Op>)
    decreases |ops|
  {
    ops == [] || match ops[0]
      case Put(bytes) => InBounds(k + |bytes|, ops[1..])
      case Take(n) => n <= k && InBounds(k - n, ops[1..])
  }

  method PutBytes(b: Buffer, bytes: seq<byte>)
    requires b.Valid()
    modifies b
    ensures b.Valid() && fresh(b.stream) && b.Contents() == old(b.Contents()) + bytes
  {
    var a := new byte[|bytes|](j requires 0 <= j < |bytes| => bytes[j]);
    assert a[..|bytes|] == bytes;
    b.Pack(a, |bytes|);
  }

  method TakeBytes(b: Buffer, n: nat) returns (bytes: seq<byte>)
    requires b.Valid() && n <= b.size
    modifies b, b.stream
    ensures b.Valid() && fresh(b.stream) && old(b.Contents()) == bytes + b.Contents() && |bytes| == n
  {
    var a := new byte[n];
    b.Unpack(a, n);
    bytes := a[..];
  }

  /** One operation on the buffer; what it takes out. */
  method Apply(b: Buffer, op: Op) returns (bytes: seq<byte>)
    requires b.Valid() && (op.Take? ==> op.n <= b.size)
    modifies b, b.stream
    ensures b.Valid() && fresh(b.stream)
    ensures old(b.Contents()) + (if op.Put? then op.bytes else []) == bytes + b.Contents()
    ensures b.size == if op.Put? then old(b.size) + |op.bytes| else old(b.size) - op.n
  {
    bytes := [];
    match op
    case Put(x) => PutBytes(b, x);
    case Take(n) => bytes := TakeBytes(b, n);
  }

  lemma Regroup(q0: seq<byte>, t: seq<byte>, q: seq<byte>, x: seq<byte>, r: seq<byte>, y: seq<byte>, q': seq<byte>)
    requires q0 == t + q + (x + r) && q + x == y + q'
    ensures q0 == (t + y) + q' + r
  {
    assert t + q + (x + r) == t + (q + x) + r == t + (y + q') + r == (t + y) + q' + r;
  }

  /** FIFO: through any interleaving of packs and in-bounds unpacks, what was there and what was
      packed, in order, is what was unpacked, in order, and what is left. */
  method Drive(b: Buffer, ops: seq<Op>) returns (taken: seq<byte>)
    requires b.Valid() && InBounds(b.size, ops)
    modifies b, b.stream
    ensures b.Valid() && old(b.Contents()) + AllPut(ops) == taken + b.Contents()
  {
    taken := [];
    var i := 0;
    assert ops[0..] == ops;
    while i < |ops|
      invariant 0 <= i <= |ops| && b.Valid() && InBounds(b.size, ops[i..])
      invariant b.stream == old(b.stream) || fresh(b.stream)
      invariant old(b.Contents()) + AllPut(ops) == taken + b.Contents() + AllPut(ops[i..])
    {
      assert ops[i..][0] == ops[i] && ops[i..][1..] == ops[i + 1..];
      ghost var q := b.Contents();
      var bytes := Apply(b, ops[i]);
      Regroup(old(b.Contents()) + AllPut(ops), taken, q, if ops[i].Put? then ops[i].bytes else [],
              AllPut(ops[i + 1..]), bytes, b.Contents());
      taken := taken + bytes;
      i := i + 1;
    }
    assert ops[i..] == [];
    assert taken + b.Contents() + [] == taken + b.Contents();
  }
}
