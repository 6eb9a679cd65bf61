/** XOR-encrypting connections (crypt.go): a rolling key over a byte stream, and a fixed key over packets. */
module XorConn {
  // ---------- the position-wise specification ----------

  /** A byte on the wire, as its eight bits. */
  datatype Octet = Octet(b7: bool, b6: bool, b5: bool, b4: bool, b3: bool, b2: bool, b1: bool, b0: bool)

  /** A key and the operation that mixes its bytes into data: XOR of bits, in every connection built here. */
  datatype Cipher = Cipher(key: seq<Octet>, mix: (Octet, Octet) -> Octet)

  function Xored(a: Octet, k: Octet): Octet {
    Octet(a.b7 != k.b7, a.b6 != k.b6, a.b5 != k.b5, a.b4 != k.b4, a.b3 != k.b3, a.b2 != k.b2, a.b1 != k.b1,
        a.b0 != k.b0)
  }

  function XorCipher(key: seq<Octet>): Cipher {
    Cipher(key, Xored)
  }

  /** Mixing in a second key byte undoes a first one exactly when the two are equal. */
  ghost predicate Cancels(mix: (Octet, Octet) -> Octet) {
    forall a, k, l :: mix(mix(a, k), l) == a <==> k == l
  }

  lemma XorCancels(key: seq<Octet>)
    ensures Cancels(XorCipher(key).mix)
  {
    forall a: Octet, k: Octet, l: Octet ensures Xored(Xored(a, k), l) == a <==> k == l {
    }
  }

  function Bit(on: bool, weight: bv8): bv8 {
    if on then weight else 0
  }

  /** The byte's eight bits, most significant first. */
  function ToByte(o: Octet): bv8 {
    HighBits(o) | LowBits(o)
  }

  function HighBits(o: Octet): bv8 {
    Bit(o.b7, 0x80) | Bit(o.b6, 0x40) | Bit(o.b5, 0x20) | Bit(o.b4, 0x10)
  }

  function LowBits(o: Octet): bv8 {
    Bit(o.b3, 0x08) | Bit(o.b2, 0x04) | Bit(o.b1, 0x02) | Bit(o.b0, 0x01)
  }

  /** The connections built here mix with the machine's XOR of bytes. */
  lemma XorIsBitwise(key: seq<Octet>, a: Octet, k: Octet)
    ensures ToByte(XorCipher(key).mix(a, k)) == ToByte(a) ^ ToByte(k)
  {
    HighXor(a, k);
    LowXor(a, k);
    Halves(HighBits(a), LowBits(a), HighBits(k), LowBits(k));
  }

  lemma HighXor(a: Octet, k: Octet)
    ensures HighBits(Xored(a, k)) == HighBits(a) ^ HighBits(k)
    ensures HighBits(a) & 0x0F == 0 && HighBits(k) & 0x0F == 0
  {
  }

  lemma LowXor(a: Octet, k: Octet)
    ensures LowBits(Xored(a, k)) == LowBits(a) ^ LowBits(k)
    ensures LowBits(a) & 0xF0 == 0 && LowBits(k) & 0xF0 == 0
  {
  }

  lemma Halves(h: bv8, l: bv8, x: bv8, y: bv8)
    requires h & 0x0F == 0 && x & 0x0F == 0 && l & 0xF0 == 0 && y & 0xF0 == 0
    ensures (h | l) ^ (x | y) == (h ^ x) | (l ^ y)
  {
  }

  /** Different bits make different bytes. */
  lemma BitsDetermineByte(a: Octet, b: Octet)
    ensures ToByte(a) == ToByte(b) <==> a == b
  {
  }

  /** `pos mod L`, as IndexIsMod shows; 0 for an empty key. */
  function IndexAt(key: seq<Octet>, pos: nat): (i: nat)
    ensures key != [] ==> i < |key|
    decreases pos
  {
    if key == [] then 0 else if pos < |key| then pos else IndexAt(key, pos - |key|)
  }

  lemma {:induction false} IndexIsMod(key: seq<Octet>, pos: nat)
    requires key != []
    ensures IndexAt(key, pos) == pos % |key|
    decreases pos
  {
    var m := |key|;
    if pos < m {
      ModUnique(pos, 0, pos, m);
    } else {
      IndexIsMod(key, pos - m);
      var q := (pos - m) / m;
      assert pos - m == q * m + (pos - m) % m;
      assert pos == (q + 1) * m + (pos - m) % m;
      ModUnique(pos, q + 1, (pos - m) % m, m);
    }
  }

  /** The key byte for a stream position. */
  function KeyAt(key: seq<Octet>, pos: nat): Octet
    requires key != []
  {
    key[IndexAt(key, pos)]
  }

  /** The byte at stream position p is XORed with key[p mod L]; an empty key changes nothing. */
  function XorAt(data: seq<Octet>, c: Cipher, pos: nat): (r: seq<Octet>)
    ensures |r| == |data|
    ensures forall i {:trigger r[i]} :: 0 <= i < |data| ==> r[i] == XorByte(data[i], c, pos + i)
  {
    seq(|data|, i requires 0 <= i < |data| => XorByte(data[i], c, pos + i))
  }

  function XorByte(b: Octet, c: Cipher, pos: nat): Octet {
    if c.key == [] then b else c.mix(b, KeyAt(c.key, pos))
  }

  /** Byte i of a chunk that starts at stream position pos is mixed with key byte (pos + i) mod L. */
  lemma StreamByte(data: seq<Octet>, c: Cipher, pos: nat, i: nat)
    requires c.key != [] && i < |data|
    ensures XorAt(data, c, pos)[i] == c.mix(data[i], c.key[(pos + i) % |c.key|])
  {
    IndexIsMod(c.key, pos + i);
  }

  /** Without a key the data passes unchanged. */
  lemma NoKeyNoChange(data: seq<Octet>, c: Cipher, pos: nat)
    requires c.key == []
    ensures XorAt(data, c, pos) == data
  {
    var r := XorAt(data, c, pos);
    assert forall i :: 0 <= i < |data| ==> r[i] == XorByte(data[i], c, pos + i);
  }

  lemma XorAtConcat(a: seq<Octet>, b: seq<Octet>, c: Cipher, pos: nat)
    ensures XorAt(a + b, c, pos) == XorAt(a, c, pos) + XorAt(b, c, pos + |a|)
  {
    var r, x, y := XorAt(a + b, c, pos), XorAt(a, c, pos), XorAt(b, c, pos + |a|);
    forall i | 0 <= i < |a + b| ensures r[i] == (x + y)[i] {
      if i >= |a| {
        assert pos + |a| + (i - |a|) == pos + i;
      }
    }
  }

  /** Decrypting at the position where it was encrypted restores the plaintext. */
  lemma XorAtInvolutive(data: seq<Octet>, c: Cipher, pos: nat)
    requires Cancels(c.mix)
    ensures XorAt(XorAt(data, c, pos), c, pos) == data
  {
    var once := XorAt(data, c, pos);
    var twice := XorAt(once, c, pos);
    forall i | 0 <= i < |data| ensures twice[i] == data[i] {
      assert once[i] == XorByte(data[i], c, pos + i);
    }
  }

  /** The i-th key bytes used from two positions are equal. */
  predicate SameKeyByte(key: seq<Octet>, p: nat, q: nat, i: nat)
    requires key != []
  {
    KeyAt(key, p + i) == KeyAt(key, q + i)
  }

  /** Decryption at another position restores the plaintext exactly where the two key streams agree. */
  lemma PositionsMustAgree(data: seq<Octet>, c: Cipher, p: nat, q: nat)
    requires c.key != [] && Cancels(c.mix)
    ensures XorAt(XorAt(data, c, p), c, q) == data <==> forall i: nat :: i < |data| ==> SameKeyByte(c.key, p, q, i)
  {
    var once := XorAt(data, c, p);
    var twice := XorAt(once, c, q);
    forall i: nat | i < |data| ensures twice[i] == data[i] <==> SameKeyByte(c.key, p, q, i) {
      assert once[i] == XorByte(data[i], c, p + i);
    }
    if forall i: nat :: i < |data| ==> SameKeyByte(c.key, p, q, i) {
      assert forall i: nat :: i < |data| ==> twice[i] == data[i];
    }
  }

  // ---------- streams split into any chunks ----------

  function Concat(chunks: seq<seq<Octet>>): seq<Octet> {
    if chunks == [] then [] else chunks[0] + Concat(chunks[1..])
  }

  /** What a connection produces from successive calls, each continuing at the position the last one left. */
  function ChunkByChunk(chunks: seq<seq<Octet>>, c: Cipher, pos: nat): seq<Octet> {
    if chunks == [] then [] else XorAt(chunks[0], c, pos) + ChunkByChunk(chunks[1..], c, pos + |chunks[0]|)
  }

  lemma {:induction false} SplitIrrelevant(chunks: seq<seq<Octet>>, c: Cipher, pos: nat)
    ensures ChunkByChunk(chunks, c, pos) == XorAt(Concat(chunks), c, pos)
  {
    if chunks == [] {
      assert XorAt([], c, pos) == [];
    } else {
      var head, rest := chunks[0], chunks[1..];
      SplitIrrelevant(rest, c, pos + |head|);
      XorAtConcat(head, Concat(rest), c, pos);
    }
  }

  lemma XorAtPrefix(data: seq<Octet>, n: nat, c: Cipher, pos: nat)
    requires n <= |data|
    ensures XorAt(data[..n], c, pos) == XorAt(data, c, pos)[..n]
  {
  }

  /**
   However the sender splits its plaintext into full writes, and however the wire bytes received so far are
   split into reads, the reader has exactly the corresponding prefix of the plaintext.
   */
  lemma PeerRecoversPlaintext(writes: seq<seq<Octet>>, received: seq<seq<Octet>>, key: seq<Octet>)
    requires Concat(received) <= ChunkByChunk(writes, XorCipher(key), 0)
    ensures |ChunkByChunk(received, XorCipher(key), 0)| == |Concat(received)|
    ensures ChunkByChunk(received, XorCipher(key), 0) <= Concat(writes)
  {
    XorCancels(key);
    PrefixRecovered(writes, received, XorCipher(key));
  }

  lemma PrefixRecovered(writes: seq<seq<Octet>>, received: seq<seq<Octet>>, c: Cipher)
    requires Cancels(c.mix) && Concat(received) <= ChunkByChunk(writes, c, 0)
    ensures |ChunkByChunk(received, c, 0)| == |Concat(received)|
    ensures ChunkByChunk(received, c, 0) <= Concat(writes)
  {
    SplitIrrelevant(writes, c, 0);
    SplitIrrelevant(received, c, 0);
    var plain, n := Concat(writes), |Concat(received)|;
    assert Concat(received) == XorAt(plain, c, 0)[..n];
    XorAtPrefix(plain, n, c, 0);
    XorAtInvolutive(plain[..n], c, 0);
  }

  lemma ModUnique(x: nat, q: int, r: nat, m: nat)
    requires m > 0 && r < m && x == q * m + r
    ensures x % m == r
  {
    var d := x / m - q;
    assert d * m == r - x % m by {
      assert x == (x / m) * m + x % m;
      assert (x / m) * m - q * m == d * m;
    }
    MultipleTooBig(d, m);
  }

  lemma MultipleTooBig(d: int, m: nat)
    ensures d >= 1 ==> d * m >= m
    ensures d <= -1 ==> d * m <= 0 - m
  {
  }

  /** Within one pass over the key the index advances with the position, and at its end it is 0 again. */
  lemma {:induction false} IndexAdvances(key: seq<Octet>, pos: nat, j: nat)
    requires key != [] && IndexAt(key, pos) + j <= |key|
    ensures IndexAt(key, pos + j) == if IndexAt(key, pos) + j == |key| then 0 else IndexAt(key, pos) + j
    decreases pos
  {
    if pos >= |key| {
      IndexAdvances(key, pos - |key|, j);
    }
  }

  // ---------- the chunked loop ----------

  /** xor.Bytes on overlapping slices: b[from..to] with key[start..], over the shorter of the two. */
  method XorBytes(b: array<Octet>, from: nat, to: nat, c: Cipher, start: nat) returns (ct: nat)
    requires from <= to <= b.Length && start <= |c.key|
    modifies b
    ensures ct == if to - from < |c.key| - start then to - from else |c.key| - start
    ensures forall i :: 0 <= i < b.Length ==>
            b[i] == if from <= i < from + ct then c.mix(old(b[i]), c.key[start + i - from]) else old(b[i])
  {
    ct := if to - from < |c.key| - start then to - from else |c.key| - start;
    var i := 0;
    while i < ct
      invariant 0 <= i <= ct
      invariant forall j :: 0 <= j < b.Length ==>
                b[j] == if from <= j < from + i then c.mix(old(b[j]), c.key[start + j - from]) else old(b[j])
    {
      b[from + i] := c.mix(b[from + i], c.key[start + i]);
      i := i + 1;
    }
  }

  /** Across one chunk the key index runs alongside the position. */
  lemma ChunkIndices(key: seq<Octet>, pos: nat, ct: nat)
    requires key != [] && IndexAt(key, pos) + ct <= |key|
    ensures forall j :: pos <= j < pos + ct ==> IndexAt(key, j) == IndexAt(key, pos) + (j - pos)
    ensures IndexAt(key, pos + ct) == Wrap(IndexAt(key, pos) + ct, |key|)
  {
    forall j | pos <= j < pos + ct ensures IndexAt(key, j) == IndexAt(key, pos) + (j - pos) {
      IndexAdvances(key, pos, j - pos);
    }
    IndexAdvances(key, pos, ct);
  }

  /** The index update of the loop, for a chunk that stays within the key. */
  function Wrap(x: nat, m: nat): (r: nat)
    requires 0 < m && x <= m
    ensures r == if x == m then 0 else x
  {
    ModUnique(x, if x == m then 1 else 0, if x == m then 0 else x, m);
    x % m
  }

  /** The loop shared by Read and Write: XOR the first `n` bytes of `b` from stream position `pos`. */
  method XorStream(b: array<Octet>, n: nat, c: Cipher, index: nat, ghost pos: nat) returns (next: nat)
    requires n <= b.Length && index == IndexAt(c.key, pos)
    modifies b
    ensures forall j :: 0 <= j < n ==> b[j] == XorByte(old(b[j]), c, pos + j)
    ensures forall j :: n <= j < b.Length ==> b[j] == old(b[j])
    ensures next == IndexAt(c.key, pos + n)
  {
    next := index;
    var i := 0;
    while i < n
      invariant 0 <= i <= n
      invariant forall j :: 0 <= j < i ==> c.key != [] && b[j] == XorByte(old(b[j]), c, pos + j)
      invariant forall j :: i <= j < b.Length ==> b[j] == old(b[j])
      invariant next == IndexAt(c.key, pos + i)
    {
      var ct := XorBytes(b, i, n, c, next);
      if ct == 0 {
        break;
      }
      ChunkIndices(c.key, pos + i, ct);
      next := Wrap(next + ct, |c.key|);
      i := i + ct;
    }
  }

  lemma StreamOf(before: seq<Octet>, after: seq<Octet>, n: nat, c: Cipher, pos: nat)
    requires n <= |before| == |after|
    requires forall j :: 0 <= j < n ==> after[j] == XorByte(before[j], c, pos + j)
    requires forall j :: n <= j < |before| ==> after[j] == before[j]
    ensures after == XorAt(before[..n], c, pos) + before[n..]
  {
  }

  // ---------- connections ----------

  /** Copies `bytes` to the front of the buffer. */
  method Fill(b: array<Octet>, bytes: seq<Octet>)
    requires |bytes| <= b.Length
    modifies b
    ensures b[..] == bytes + old(b[|bytes|..])
  {
    forall i | 0 <= i < |bytes| {
      b[i] := bytes[i];
    }
    assert b[..] == b[..|bytes|] + b[|bytes|..];
  }

  /** The connection underneath: bytes in flight towards us, bytes handed to the network. */
  class Wire {
    var incoming: seq<Octet>
    var outgoing: seq<Octet>

    constructor (arriving: seq<Octet>)
      ensures incoming == arriving && outgoing == []
    {
      incoming, outgoing := arriving, [];
    }

    /** Delivers at most `limit` bytes, as a network read may return fewer than asked for. */
    method Read(b: array<Octet>, limit: nat) returns (n: nat)
      modifies this`incoming, b
      ensures n <= b.Length && n <= |old(incoming)| && n <= limit
      ensures b[..] == old(incoming[..n]) + old(b[n..]) && incoming == old(incoming[n..])
    {
      n := if limit < b.Length then limit else b.Length;
      n := if n < |incoming| then n else |incoming|;
      Fill(b, incoming[..n]);
      incoming := incoming[n..];
    }

    /** The network delivers more bytes. */
    method Arrive(bytes: seq<Octet>)
      modifies this`incoming
      ensures incoming == old(incoming) + bytes
    {
      incoming := incoming + bytes;
    }

    /** Accepts the first `accepted` bytes; fewer than all of them is a failed write. */
    method Write(b: array<Octet>, accepted: nat)
      requires accepted <= b.Length
      modifies this`outgoing
      ensures outgoing == old(outgoing) + b[..accepted]
    {
      outgoing := outgoing + b[..accepted];
    }
  }

  /** A stream connection with independent rolling key indices for its two directions. */
  class EConnXor {
    const conn: Wire
    const cipher: Cipher
    var key_ri: nat
    var key_wi: nat
    ghost var readPos: nat
    ghost var writePos: nat

    ghost predicate Valid()
      reads this
    {
      && key_ri == IndexAt(cipher.key, readPos) && key_wi == IndexAt(cipher.key, writePos)
      && (cipher.key != [] ==> key_ri < |cipher.key| && key_wi < |cipher.key|)
    }

    constructor (conn: Wire, key: seq<Octet>)
      ensures Valid() && this.conn == conn && this.cipher == XorCipher(key) && readPos == 0 && writePos == 0
    {
      this.conn, this.cipher := conn, XorCipher(key);
      key_ri, key_wi, readPos, writePos := 0, 0, 0, 0;
    }

    /** Decrypts in place what the wire delivers, however little that is. */
    method Read(b: array<Octet>, limit: nat) returns (n: nat)
      requires Valid()
      modifies this`key_ri, this`readPos, conn`incoming, b
      ensures Valid() && readPos == old(readPos) + n
      ensures n <= b.Length && n <= |old(conn.incoming)| && conn.incoming == old(conn.incoming[n..])
      ensures b[..] == XorAt(old(conn.incoming[..n]), cipher, old(readPos)) + old(b[n..])
    {
      n := conn.Read(b, limit);
      ghost var delivered := b[..];
      key_ri := XorStream(b, n, cipher, key_ri, readPos);
      StreamOf(delivered, b[..], n, cipher, readPos);
      assert delivered[..n] == old(conn.incoming[..n]) && delivered[n..] == old(b[n..]);
      readPos := readPos + n;
    }

    /** Encrypts the caller's buffer in place and writes it; the key moves past every byte, accepted or not. */
    method Write(b: array<Octet>, accepted: nat)
      requires Valid() && accepted <= b.Length
      modifies this`key_wi, this`writePos, conn`outgoing, b
      ensures Valid() && writePos == old(writePos) + b.Length
      ensures b[..] == XorAt(old(b[..]), cipher, old(writePos))
      ensures conn.outgoing == old(conn.outgoing) + XorAt(old(b[..]), cipher, old(writePos))[..accepted]
    {
      key_wi := XorStream(b, b.Length, cipher, key_wi, writePos);
      StreamOf(old(b[..]), b[..], b.Length, cipher, writePos);
      assert old(b[..])[..b.Length] == old(b[..]);
      conn.Write(b, accepted);
      writePos := writePos + b.Length;
    }
  }

  // ---------- two connections over one network ----------

  /** A full write of `data` by the sender, up to n bytes moved by the network, or one read by the receiver. */
  datatype Event = WriteAll(data: seq<Octet>) | Deliver(n: nat) | ReadSome(size: nat, limit: nat)

  function Written(schedule: seq<Event>): seq<Octet> {
    if schedule == [] then []
    else
      var last := schedule[|schedule| - 1];
      Written(schedule[..|schedule| - 1]) + if last.WriteAll? then last.data else []
  }

  /** The sender has written `sent`; the network has moved `moved` bytes of it, of which `got` has been read. */
  ghost predicate Linked(a: EConnXor, b: EConnXor, sent: seq<Octet>, got: seq<Octet>, moved: nat)
    reads a, b, a.conn, b.conn
  {
    && a.Valid() && b.Valid() && a.cipher == b.cipher && Cancels(a.cipher.mix)
    && a.writePos == |sent| && a.conn.outgoing == XorAt(sent, a.cipher, 0)
    && b.readPos == |got| && got <= sent && |got| <= moved <= |sent|
    && b.conn.incoming == a.conn.outgoing[|got|..moved]
  }

  lemma XorAtSlice(data: seq<Octet>, c: Cipher, lo: nat, hi: nat)
    requires lo <= hi <= |data|
    ensures XorAt(data, c, 0)[lo..hi] == XorAt(data[lo..hi], c, lo)
  {
  }

  lemma SliceRecovered(data: seq<Octet>, c: Cipher, lo: nat, hi: nat)
    requires Cancels(c.mix) && lo <= hi <= |data|
    ensures XorAt(XorAt(data, c, 0)[lo..hi], c, lo) == data[lo..hi]
  {
    XorAtSlice(data, c, lo, hi);
    XorAtInvolutive(data[lo..hi], c, lo);
  }

  /** Writing appends to what was sent and disturbs nothing already under way. */
  method Send(a: EConnXor, b: EConnXor, data: seq<Octet>, ghost sent: seq<Octet>, ghost got: seq<Octet>,
              ghost moved: nat)
    requires Linked(a, b, sent, got, moved) && a != b && a.conn != b.conn
    modifies a`key_wi, a`writePos, a.conn`outgoing
    ensures Linked(a, b, sent + data, got, moved)
  {
    var buf := new Octet[|data|](i requires 0 <= i < |data| => data[i]);
    assert buf[..] == data;
    a.Write(buf, buf.Length);
    XorAtConcat(sent, data, a.cipher, 0);
  }

  method Move(a: EConnXor, b: EConnXor, n: nat, ghost sent: seq<Octet>, ghost got: seq<Octet>, moved: nat)
    returns (moved': nat)
    requires Linked(a, b, sent, got, moved) && a != b && a.conn != b.conn
    modifies b.conn`incoming
    ensures Linked(a, b, sent, got, moved')
  {
    moved' := if moved + n < |a.conn.outgoing| then moved + n else |a.conn.outgoing|;
    b.conn.Arrive(a.conn.outgoing[moved..moved']);
  }

  /** Reading yields the next bytes of the plaintext, however few. */
  method Receive(a: EConnXor, b: EConnXor, size: nat, limit: nat, ghost sent: seq<Octet>, got: seq<Octet>,
                 ghost moved: nat)
    returns (got': seq<Octet>)
    requires Linked(a, b, sent, got, moved) && a != b && a.conn != b.conn
    modifies b`key_ri, b`readPos, b.conn`incoming
    ensures got <= got' && Linked(a, b, sent, got', moved)
  {
    var buf := new Octet[size](i => Octet(false, false, false, false, false, false, false, false));
    ghost var incoming := b.conn.incoming;
    var n := b.Read(buf, limit);
    ReadAdvances(sent, got, incoming, moved, n, a.cipher);
    assert buf[..n] == XorAt(incoming[..n], a.cipher, |got|);
    got' := got + buf[..n];
  }

  /** Decrypting the first n waiting bytes gives the plaintext that follows what has been read. */
  lemma ReadAdvances(sent: seq<Octet>, got: seq<Octet>, incoming: seq<Octet>, moved: nat, n: nat, c: Cipher)
    requires Cancels(c.mix) && got <= sent && |got| <= moved <= |sent|
    requires incoming == XorAt(sent, c, 0)[|got|..moved] && n <= |incoming|
    ensures got + XorAt(incoming[..n], c, |got|) == sent[..|got| + n]
    ensures incoming[n..] == XorAt(sent, c, 0)[|got| + n..moved]
  {
    var g, wire := |got|, XorAt(sent, c, 0);
    assert incoming[..n] == wire[g..g + n] && incoming[n..] == wire[g + n..moved];
    SliceRecovered(sent, c, g, g + n);
    assert got + sent[g..g + n] == sent[..g + n];
  }

  /**
   Two fresh connections with one key, their writes, network and reads interleaved in any way: what has been
   read is a prefix of what was written, and all of it once everything was moved and read.
   */
  method Converse(a: EConnXor, b: EConnXor, schedule: seq<Event>) returns (got: seq<Octet>, moved: nat)
    requires a.Valid() && b.Valid() && a != b && a.conn != b.conn && a.cipher == b.cipher == XorCipher(a.cipher.key)
    requires a.writePos == 0 && b.readPos == 0 && a.conn.outgoing == [] && b.conn.incoming == []
    modifies a, b, a.conn, b.conn
    ensures got <= Written(schedule) && |got| + |b.conn.incoming| == moved <= |Written(schedule)|
    ensures moved == |Written(schedule)| && b.conn.incoming == [] ==> got == Written(schedule)
  {
    XorCancels(a.cipher.key);
    got, moved := [], 0;
    for i := 0 to |schedule|
      invariant Linked(a, b, Written(schedule[..i]), got, moved)
    {
      assert schedule[..i + 1][..i] == schedule[..i];
      ghost var sent := Written(schedule[..i]);
      match schedule[i]
      case WriteAll(data) => Send(a, b, data, sent, got, moved);
      case Deliver(n) => moved := Move(a, b, n, sent, got, moved);
      case ReadSome(size, limit) => got := Receive(a, b, size, limit, sent, got, moved);
    }
    assert schedule[..|schedule|] == schedule;
  }

  /** A packet is XORed with the key once, from its start; bytes beyond the key's length pass unchanged. */
  function PacketXor(data: seq<Octet>, c: Cipher): (r: seq<Octet>)
    ensures |r| == |data|
  {
    var m := if |data| < |c.key| then |data| else |c.key|;
    XorAt(data[..m], c, 0) + data[m..]
  }

  /** Byte i of a packet is mixed with key[i] exactly when the key is that long; all others travel unchanged. */
  lemma PacketBytes(data: seq<Octet>, c: Cipher, i: nat)
    requires i < |data|
    ensures PacketXor(data, c)[i] == if i < |c.key| then c.mix(data[i], c.key[i]) else data[i]
  {
    FirstPass(data, c, if |data| < |c.key| then |data| else |c.key|);
  }

  /** The receiver of a packet recovers it whatever its length. */
  lemma PacketRoundTrip(data: seq<Octet>, key: seq<Octet>)
    ensures PacketXor(PacketXor(data, XorCipher(key)), XorCipher(key)) == data
    ensures |data| > |key| ==> PacketXor(data, XorCipher(key))[|key|..] == data[|key|..]
  {
    XorCancels(key);
    PacketRecovered(data, XorCipher(key));
  }

  lemma PacketRecovered(data: seq<Octet>, c: Cipher)
    requires Cancels(c.mix)
    ensures PacketXor(PacketXor(data, c), c) == data
    ensures |data| > |c.key| ==> PacketXor(data, c)[|c.key|..] == data[|c.key|..]
  {
    var m := if |data| < |c.key| then |data| else |c.key|;
    var once := PacketXor(data, c);
    assert once[..m] == XorAt(data[..m], c, 0) && once[m..] == data[m..];
    XorAtInvolutive(data[..m], c, 0);
  }

  /** xor.Bytes over the first n bytes of a buffer, with the key from its start. */
  method XorPacket(b: array<Octet>, n: nat, c: Cipher)
    requires n <= b.Length
    modifies b
    ensures b[..] == PacketXor(old(b[..])[..n], c) + old(b[..])[n..]
  {
    ghost var before := b[..];
    var ct := XorBytes(b, 0, n, c, 0);
    ghost var after := b[..];
    forall i | 0 <= i < |before| ensures after[i] == if i < ct then c.mix(before[i], c.key[i]) else before[i] {
      assert after[i] == b[i] && before[i] == old(b[i]);
    }
    PacketMatches(before, after, n, c, ct);
  }

  /** A packet connection; each packet starts the key anew. */
  class EPacketConnXor {
    const conn: Wire
    const cipher: Cipher

    constructor (conn: Wire, key: seq<Octet>)
      ensures this.conn == conn && this.cipher == XorCipher(key)
    {
      this.conn, this.cipher := conn, XorCipher(key);
    }

    method ReadFrom(b: array<Octet>, packet: seq<Octet>) returns (n: nat)
      modifies b
      ensures n == if |packet| < b.Length then |packet| else b.Length
      ensures b[..] == PacketXor(packet[..n], cipher) + old(b[n..])
    {
      n := if |packet| < b.Length then |packet| else b.Length;
      Fill(b, packet[..n]);
      ghost var delivered := b[..];
      assert delivered[..n] == packet[..n] && delivered[n..] == old(b[n..]);
      XorPacket(b, n, cipher);
    }

    method WriteTo(b: array<Octet>)
      modifies b, conn`outgoing
      ensures b[..] == PacketXor(old(b[..]), cipher) && conn.outgoing == old(conn.outgoing) + b[..]
    {
      XorPacket(b, b.Length, cipher);
      assert b[..b.Length] == b[..];
      conn.Write(b, b.Length);
    }
  }

  lemma PacketMatches(before: seq<Octet>, after: seq<Octet>, n: nat, c: Cipher, ct: nat)
    requires n <= |before| == |after| && ct == if n < |c.key| then n else |c.key|
    requires forall i :: 0 <= i < |before| ==> after[i] == if i < ct then c.mix(before[i], c.key[i]) else before[i]
    ensures after == PacketXor(before[..n], c) + before[n..]
  {
    var x := XorAt(before[..ct], c, 0);
    assert after == x + before[ct..] by {
      FirstPass(before, c, ct);
    }
    assert before[..n][..ct] == before[..ct] && before[..n][ct..] + before[n..] == before[ct..];
    assert x + before[..n][ct..] + before[n..] == x + (before[..n][ct..] + before[n..]);
  }

  /** Up to the key's length, the i-th byte meets the i-th key byte. */
  lemma FirstPass(data: seq<Octet>, c: Cipher, ct: nat)
    requires ct <= |data| && ct <= |c.key|
    ensures forall i {:trigger data[i]} :: 0 <= i < ct ==> XorAt(data[..ct], c, 0)[i] == c.mix(data[i], c.key[i])
  {
    forall i | 0 <= i < ct ensures XorAt(data[..ct], c, 0)[i] == c.mix(data[i], c.key[i]) {
      assert IndexAt(c.key, i) == i;
    }
  }
}
