// Big-endian integers and packed peer records, as the UDP replies and the compact lists lay them out.
module Wire {
  import opened Types

  // The lowest `width` bytes of a value, highest byte first (what a Go conversion to uintN keeps).
  function BE(value: nat, width: nat): (bs: Bytes)
    ensures |bs| == width
  {
    if width == 0 then [] else BE(value / 256, width - 1) + [value % 256]
  }

  function Value(bs: Bytes): nat {
    if bs == [] then 0 else 256 * Value(bs[..|bs| - 1]) + bs[|bs| - 1]
  }

  // The number of values of a field of that width.
  function Range(width: nat): nat {
    if width == 0 then 1 else 256 * Range(width - 1)
  }

  lemma Ranges()
    ensures Range(2) == 0x1_0000 && Range(4) == 0x1_0000_0000 && Range(8) == 0x1_0000_0000_0000_0000
  {
    assert Range(3) == 0x100_0000 && Range(6) == 0x1_0000_0000_0000;
  }

  lemma {:induction false} ValueOfBE(value: nat, width: nat)
    requires value < Range(width)
    ensures Value(BE(value, width)) == value
  {
    if width > 0 {
      ValueOfBE(value / 256, width - 1);
    }
  }

  lemma {:induction false} BEOfValue(bs: Bytes)
    ensures Value(bs) < Range(|bs|) && BE(Value(bs), |bs|) == bs
  {
    if bs != [] {
      BEOfValue(bs[..|bs| - 1]);
      assert bs == bs[..|bs| - 1] + [bs[|bs| - 1]];
    }
  }

  // The most significant byte comes first: what follows a byte shifts it up by its own width.
  lemma {:induction false} HighFirst(high: Bytes, low: Bytes)
    ensures Value(high + low) == Value(high) * Range(|low|) + Value(low)
    ensures forall b: Byte :: Value([b]) == b
    decreases |low|
  {
    forall b: Byte ensures Value([b]) == b {
      assert [b][..0] == [];
    }
    if low == [] {
      assert high + low == high;
    } else {
      var n := |low| - 1;
      assert (high + low)[..|high| + n] == high + low[..n];
      HighFirst(high, low[..n]);
      assert 256 * (Value(high) * Range(n)) == Value(high) * (256 * Range(n)) by { Swap(Value(high), Range(n)); }
    }
  }

  lemma Swap(a: nat, b: nat)
    ensures 256 * (a * b) == a * (256 * b)
  {
  }

  // The bytes of 16-bit and 32-bit fields.
  lemma FieldBytes(value: nat)
    ensures BE(value, 2) == [value / 0x100 % 0x100, value % 0x100]
    ensures BE(value, 4) == [value / 0x100_0000 % 0x100, value / 0x1_0000 % 0x100, value / 0x100 % 0x100, value % 0x100]
  {
    var v1, v2, v3 := value / 256, value / 256 / 256, value / 256 / 256 / 256;
    assert v2 == value / 0x1_0000 && v3 == value / 0x100_0000;
    assert BE(v3, 1) == [v3 % 256] by { assert BE(v3 / 256, 0) == []; }
    assert BE(v2, 2) == [v3 % 256, v2 % 256];
    assert BE(v1, 3) == [v3 % 256, v2 % 256, v1 % 256];
    assert BE(v1, 1) == [v1 % 256] by { assert BE(v2, 0) == []; }
  }

  // int32 and its two's complement.
  function ToUint32(n: int): nat {
    n % 0x1_0000_0000
  }

  function ToInt32(u: nat): int {
    if u < 0x8000_0000 then u else u - 0x1_0000_0000
  }

  // One peer as bytes on the wire.
  datatype Endpoint = Endpoint(ip: Bytes, port: nat)

  ghost predicate Fits(es: seq<Endpoint>, size: nat) {
    forall i :: 0 <= i < |es| ==> |es[i].ip| == size && es[i].port < 0x1_0000
  }

  function Record(e: Endpoint): Bytes {
    e.ip + BE(e.port, 2)
  }

  function Pack(es: seq<Endpoint>): Bytes {
    if es == [] then [] else Pack(es[..|es| - 1]) + Record(es[|es| - 1])
  }

  // The whole records at the front of the data; what is left is shorter than a record.
  function Unpack(data: Bytes, size: nat): seq<Endpoint>
    decreases |data|
  {
    if |data| < size + 2 then []
    else [Endpoint(data[..size], Value(data[size..size + 2]))] + Unpack(data[size + 2..], size)
  }

  lemma {:induction false} PackFirst(es: seq<Endpoint>)
    requires es != []
    ensures Pack(es) == Record(es[0]) + Pack(es[1..])
  {
    if |es| > 1 {
      var front := es[..|es| - 1];
      PackFirst(front);
      assert front[1..] == es[1..][..|es| - 2];
    }
  }

  lemma {:induction false} PackLength(es: seq<Endpoint>, size: nat)
    requires Fits(es, size)
    ensures |Pack(es)| == (size + 2) * |es|
  {
    if es == [] {
      assert (size + 2) * 0 == 0;
    } else {
      PackLength(es[..|es| - 1], size);
      MoreRecords(size + 2, |es| - 1);
    }
  }

  lemma MoreRecords(width: nat, n: nat)
    ensures width * (n + 1) == width * n + width
  {
  }

  lemma OneRecord(e: Endpoint, rest: Bytes, size: nat)
    requires |e.ip| == size && e.port < 0x1_0000
    ensures var data := Record(e) + rest;
            data[..size] == e.ip && Value(data[size..size + 2]) == e.port && data[size + 2..] == rest
  {
    Ranges();
    ValueOfBE(e.port, 2);
    assert (Record(e) + rest)[size..size + 2] == BE(e.port, 2);
  }

  // Unpacking packed records, and a partial record after them, gives the records back.
  lemma {:induction false} UnpackPack(es: seq<Endpoint>, size: nat, tail: Bytes)
    requires Fits(es, size) && |tail| < size + 2
    ensures Unpack(Pack(es) + tail, size) == es
    decreases |es|
  {
    if es == [] {
      assert Pack(es) + tail == tail;
    } else {
      PackFirst(es);
      assert Pack(es) + tail == Record(es[0]) + (Pack(es[1..]) + tail);
      OneRecord(es[0], Pack(es[1..]) + tail, size);
      UnpackPack(es[1..], size, tail);
      assert es == [es[0]] + es[1..];
    }
  }

  // The trailing bytes that make no whole record.
  function Leftover(data: Bytes, size: nat): (tail: Bytes)
    ensures |tail| < size + 2
    decreases |data|
  {
    if |data| < size + 2 then data else Leftover(data[size + 2..], size)
  }

  lemma FirstRecord(data: Bytes, size: nat)
    requires |data| >= size + 2
    ensures var e := Endpoint(data[..size], Value(data[size..size + 2]));
            e.port < 0x1_0000 && data == Record(e) + data[size + 2..]
  {
    BEOfValue(data[size..size + 2]);
    Ranges();
    assert data == data[..size] + data[size..size + 2] + data[size + 2..];
  }

  // Packing what was unpacked gives back the whole records: only a partial one at the end is lost.
  lemma {:induction false} PackUnpack(data: Bytes, size: nat)
    ensures Fits(Unpack(data, size), size)
    ensures data == Pack(Unpack(data, size)) + Leftover(data, size)
    decreases |data|
  {
    hide Record, BE, Value, Pack;
    var es := Unpack(data, size);
    if |data| < size + 2 {
      NothingPacked();
      assert [] + data == data;
    } else {
      var rest := data[size + 2..];
      var e, tail := Record(es[0]), Leftover(data, size);
      FirstRecord(data, size);
      PackUnpack(rest, size);
      assert es[1..] == Unpack(rest, size) && tail == Leftover(rest, size);
      PackFirst(es);
      assert e + (Pack(es[1..]) + tail) == (e + Pack(es[1..])) + tail;
    }
  }

  lemma NothingPacked()
    ensures Pack([]) == []
  {
  }
}

// Addresses: text on one side, 4 or 16 bytes on the other.
module Addresses {
  import opened Types

  const V4_PREFIX: Bytes := [0, 0, 0, 0, 0, 0, 0, 0, 0, 0, 255, 255]

  // An IPv4 address in 16 bytes.
  function Mapped(ip4: Bytes): Bytes {
    V4_PREFIX + ip4
  }

  // net.IP.To4
  function To4(ip: Bytes): Option<Bytes> {
    if |ip| == 4 then Some(ip)
    else if |ip| == 16 && ip[..12] == V4_PREFIX then Some(ip[12..])
    else None
  }

  // net.ParseIP (16 bytes, or nil) and net.IP.String.
  datatype Net = Net(parse: Address -> Option<Bytes>, render: Bytes -> Address)
  {
    // What is assumed of the library: parsing yields 16 bytes, and a rendered address parses back.
    ghost predicate Sound() {
      && (forall a :: parse(a).Some? ==> |parse(a).value| == 16)
      && (forall ip :: |ip| == 4 ==> parse(render(ip)) == Some(Mapped(ip)))
      && (forall ip :: |ip| == 16 ==> parse(render(ip)) == Some(ip))
      && (forall ip :: |ip| == 16 && To4(ip).Some? ==> render(ip) == render(To4(ip).value))
    }

    // common.Address.IPv4
    function IPv4(a: Address): Option<Bytes> {
      if parse(a).None? then None else To4(parse(a).value)
    }

    // common.Address.IPv6: any parsed address has a 16-byte form.
    function IPv6(a: Address): Option<Bytes> {
      parse(a)
    }

    // The text Go would print for the address.
    function Canonical(a: Address): Address {
      if parse(a).None? then a else render(parse(a).value)
    }
  }

  lemma MappedIsV4(ip4: Bytes)
    requires |ip4| == 4
    ensures To4(Mapped(ip4)) == Some(ip4)
  {
  }

  lemma V4IsMapped(ip: Bytes)
    requires |ip| == 16 && To4(ip).Some?
    ensures Mapped(To4(ip).value) == ip
  {
    assert ip == ip[..12] + ip[12..];
  }

  // Such a library exists: one character a byte, and no prefix for an IPv4 address.

  function Spell(ip: Bytes): Address {
    seq(|ip|, i requires 0 <= i < |ip| => ip[i] as char)
  }

  function Unspell(a: Address): Bytes
    requires forall i :: 0 <= i < |a| ==> a[i] < 256 as char
  {
    seq(|a|, i requires 0 <= i < |a| => a[i] as int)
  }

  function Parse(a: Address): Option<Bytes> {
    if !(forall i :: 0 <= i < |a| ==> a[i] < 256 as char) then None
    else if |a| == 4 then Some(Mapped(Unspell(a)))
    else if |a| == 16 then Some(Unspell(a))
    else None
  }

  function Render(ip: Bytes): Address {
    if To4(ip).Some? then Spell(To4(ip).value) else Spell(ip)
  }

  lemma SpelledBack(ip: Bytes)
    ensures forall i :: 0 <= i < |Spell(ip)| ==> Spell(ip)[i] < 256 as char
    ensures Unspell(Spell(ip)) == ip
  {
  }

  lemma SoundIsPossible()
    ensures Net(Parse, Render).Sound()
  {
    forall ip: Bytes | |ip| == 4 ensures Parse(Render(ip)) == Some(Mapped(ip)) {
      SpelledBack(ip);
    }
    forall ip: Bytes | |ip| == 16 ensures Parse(Render(ip)) == Some(ip) {
      if To4(ip).Some? {
        SpelledBack(To4(ip).value);
        V4IsMapped(ip);
      } else {
        SpelledBack(ip);
      }
    }
  }
}
