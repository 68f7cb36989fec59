/** The payloads of SEM_INIT and CALL_IO, as the client packs them and the kernel reads them. */
module Messages {
  import opened Bytes
  import opened ByteBuffer

  /** A NUL-terminated string that fits a message. */
  ghost predicate IsString(a: array<byte>)
    reads a
  {
    0 in a[..] && a.Length < WORD
  }

  /** buffer_pack_sem_init: the value goes out as a uint32_t. */
  method PackSemInit(b: Buffer, name: array<byte>, value: nat)
    requires b.Valid() && IsString(name) && value < WORD && name != b.stream
    modifies b
    ensures b.Valid() && fresh(b.stream)
    ensures b.Contents() == old(b.Contents()) + PackedString(CString(name[..])) + Word(value)
  {
    b.PackString(name);
    b.PackWord(value);
  }

  /** Room for a string, and then some: what the kernel's readers take for granted. */
  predicate StringFirst(q: seq<byte>, more: nat) { |q| >= 4 && Number(q[..4]) + more <= |q| - 4 }

  function AfterString(q: seq<byte>): seq<byte>
    requires StringFirst(q, 0)
  {
    q[4 + Number(q[..4])..]
  }

  /** __buffer_unpack_tarea_sem_init: the value comes in as an int32_t. */
  method UnpackSemInit(b: Buffer) returns (name: array<byte>, value: int)
    requires b.Valid() && StringFirst(b.Contents(), 4)
    modifies b, b.stream
    ensures b.Valid() && fresh(name)
    ensures var q := old(b.Contents()); var r := AfterString(q);
      && name[..] == q[4..4 + Number(q[..4])] && value == Signed(Number(r[..4])) && b.Contents() == r[4..]
  {
    name := b.UnpackString();
    var w := b.UnpackWord();
    value := Signed(w);
  }

  /** SEM_INIT arrives with the name that was sent. The value arrives as sent exactly when it is
      below 2^31; a larger one becomes a negative initial value. */
  method SemInitArrives(b: Buffer, name: array<byte>, value: nat) returns (name': array<byte>, value': int)
    requires b.Valid() && b.Contents() == [] && IsString(name) && value < WORD && name != b.stream
    modifies b, b.stream
    ensures 0 in name'[..] && 0 in old(name[..]) && CString(name'[..]) == CString(old(name[..]))
    ensures b.Valid() && b.Contents() == []
    ensures value' == value <==> value < 0x8000_0000
    ensures value >= 0x8000_0000 ==> value' < 0
  {
    ghost var s := CString(name[..]);
    PackSemInit(b, name, value);
    PackedStringFront(s, Word(value));
    assert [] + PackedString(s) == PackedString(s);
    NumberOfWord(value);
    assert Word(value)[..4] == Word(value) && Word(value)[4..] == [];
    name', value' := UnpackSemInit(b);
    assert name'[..] == s + [0];
    DataIsString(s);
  }

  /** buffer_pack_mate_call_io */
  method PackCallIo(b: Buffer, device: array<byte>, message: array<byte>)
    requires b.Valid() && IsString(device) && IsString(message) && device != b.stream && message != b.stream
    modifies b
    ensures b.Valid() && fresh(b.stream)
    ensures b.Contents() == old(b.Contents()) + PackedString(CString(device[..])) + PackedString(CString(message[..]))
  {
    b.PackString(device);
    b.PackString(message);
  }

  /** __buffer_unpack_tarea_call_io */
  method UnpackCallIo(b: Buffer) returns (device: array<byte>, message: array<byte>)
    requires b.Valid() && StringFirst(b.Contents(), 0) && StringFirst(AfterString(b.Contents()), 0)
    modifies b, b.stream
    ensures b.Valid() && fresh(device) && fresh(message)
    ensures var q := old(b.Contents()); var r := AfterString(q);
      && device[..] == q[4..4 + Number(q[..4])] && message[..] == r[4..4 + Number(r[..4])]
      && b.Contents() == AfterString(r)
  {
    device := b.UnpackString();
    message := b.UnpackString();
  }

  lemma TwoStrings(s: seq<byte>, t: seq<byte>)
    requires |s| + 1 < WORD && |t| + 1 < WORD
    ensures var q := PackedString(s) + PackedString(t);
      && StringFirst(q, 0) && q[4..4 + Number(q[..4])] == s + [0]
      && var r := AfterString(q);
      && StringFirst(r, 0) && r[4..4 + Number(r[..4])] == t + [0] && AfterString(r) == []
  {
    assert PackedString(t) + [] == PackedString(t);
    PackedStringFront(s, PackedString(t));
    PackedStringFront(t, []);
  }

  /** CALL_IO arrives with the device and the message that were sent, in that order. */
  method CallIoArrives(b: Buffer, device: array<byte>, message: array<byte>)
    returns (device': array<byte>, message': array<byte>)
    requires b.Valid() && b.Contents() == [] && IsString(device) && IsString(message)
    requires device != b.stream && message != b.stream
    modifies b, b.stream
    ensures 0 in device'[..] && 0 in old(device[..]) && CString(device'[..]) == CString(old(device[..]))
    ensures 0 in message'[..] && 0 in old(message[..]) && CString(message'[..]) == CString(old(message[..]))
    ensures b.Valid() && b.Contents() == []
  {
    ghost var s, t := CString(device[..]), CString(message[..]);
    PackCallIo(b, device, message);
    hide PackedString, CString, StringFirst, AfterString;
    TwoStrings(s, t);
    assert [] + PackedString(s) == PackedString(s);
    device', message' := UnpackCallIo(b);
    assert device'[..] == s + [0] && message'[..] == t + [0];
    DataIsString(s);
    DataIsString(t);
  }
}
