// The text keys of the pending-marker map: jobKey and the scan in cancelPendingJobs.
module JobKeys {
  import opened Types
  import opened ScheduleModel

  const DIGITS := "0123456789abcdef"

  // fmt's %x of a byte string.
  function Hex(bs: Bytes): (text: string)
    ensures |text| == 2 * |bs|
  {
    if bs == [] then "" else Hex(bs[..|bs| - 1]) + [DIGITS[bs[|bs| - 1] / 16], DIGITS[bs[|bs| - 1] % 16]]
  }

  lemma DigitsDiffer(i: nat, j: nat)
    requires i < 16 && j < 16 && DIGITS[i] == DIGITS[j]
    ensures i == j
  {
  }

  lemma {:induction false} HexInjective(a: Bytes, b: Bytes)
    requires Hex(a) == Hex(b)
    ensures a == b
  {
    if a != [] && b != [] {
      var x, y := a[|a| - 1], b[|b| - 1];
      var n := |Hex(a)|;
      assert Hex(a)[n - 2] == DIGITS[x / 16] && Hex(a)[n - 1] == DIGITS[x % 16];
      assert Hex(b)[n - 2] == DIGITS[y / 16] && Hex(b)[n - 1] == DIGITS[y % 16];
      DigitsDiffer(x / 16, y / 16);
      DigitsDiffer(x % 16, y % 16);
      assert Hex(a)[..n - 2] == Hex(a[..|a| - 1]) && Hex(b)[..n - 2] == Hex(b[..|b| - 1]);
      HexInjective(a[..|a| - 1], b[..|b| - 1]);
      assert a == a[..|a| - 1] + [x] && b == b[..|b| - 1] + [y];
    } else {
      assert |Hex(a)| == 2 * |a| && |Hex(b)| == 2 * |b|;
    }
  }

  function Prefix(h: InfoHash): string {
    Hex(h.raw) + ":"
  }

  function Suffix(p: PeerID): string {
    ":" + Hex(p.raw)
  }

  // jobKey
  function Text(key: JobKey): string {
    Hex(key.infoHash.raw) + ":" + key.name + ":" + Hex(key.peerID.raw)
  }

  // InfoHash.Valid and PeerID.Valid, checked by MakeRequest on every announce.
  predicate ValidIds(key: PeerKey) {
    |key.infoHash.raw| == 20 && |key.peerID.raw| == 20
  }

  predicate ValidKey(key: JobKey) {
    ValidIds(PeerKey(key.infoHash, key.peerID))
  }

  lemma TextShape(key: JobKey)
    requires ValidKey(key)
    ensures var t := Text(key);
            && |t| == 82 + |key.name|
            && t[..41] == Prefix(key.infoHash) && t[|t| - 41..] == Suffix(key.peerID)
            && t[41..|t| - 41] == key.name
  {
    var t := Text(key);
    assert t == Prefix(key.infoHash) + key.name + Suffix(key.peerID);
  }

  // Distinct jobs have distinct keys, colons in forwarder names or not.
  lemma TextInjective(a: JobKey, b: JobKey)
    requires ValidKey(a) && ValidKey(b) && Text(a) == Text(b)
    ensures a == b
  {
    TextShape(a);
    TextShape(b);
    assert Prefix(a.infoHash)[..40] == Hex(a.infoHash.raw) && Prefix(b.infoHash)[..40] == Hex(b.infoHash.raw);
    assert Suffix(a.peerID)[1..] == Hex(a.peerID.raw) && Suffix(b.peerID)[1..] == Hex(b.peerID.raw);
    HexInjective(a.infoHash.raw, b.infoHash.raw);
    HexInjective(a.peerID.raw, b.peerID.raw);
  }

  // The length, prefix and suffix test of the scan.
  predicate ScanMatches(text: string, key: PeerKey) {
    && |text| > |Prefix(key.infoHash)| + |Suffix(key.peerID)|
    && text[..|Prefix(key.infoHash)|] == Prefix(key.infoHash)
    && text[|text| - |Suffix(key.peerID)|..] == Suffix(key.peerID)
  }

  // The scan finds exactly the keys of that hash and peer, except those of the unnamed forwarder.
  lemma ScanIsExact(job: JobKey, key: PeerKey)
    requires ValidKey(job) && ValidIds(key)
    ensures ScanMatches(Text(job), key) <==> job.infoHash == key.infoHash && job.peerID == key.peerID && job.name != ""
  {
    TextShape(job);
    if ScanMatches(Text(job), key) {
      assert Prefix(job.infoHash)[..40] == Hex(job.infoHash.raw) && Prefix(key.infoHash)[..40] == Hex(key.infoHash.raw);
      assert Suffix(job.peerID)[1..] == Hex(job.peerID.raw) && Suffix(key.peerID)[1..] == Hex(key.peerID.raw);
      HexInjective(job.infoHash.raw, key.infoHash.raw);
      HexInjective(job.peerID.raw, key.peerID.raw);
    }
  }

  // A map with text keys stands for a map with structured keys.
  ghost predicate Represents(texts: map<string, Marker>, pending: Pending) {
    && (forall key :: key in pending ==> ValidKey(key) && Text(key) in texts && texts[Text(key)] == pending[key])
    && (forall text :: text in texts ==> exists key :: key in pending && text == Text(key))
  }

  lemma RepresentsLookup(texts: map<string, Marker>, pending: Pending, key: JobKey)
    requires Represents(texts, pending) && ValidKey(key)
    ensures Text(key) in texts <==> key in pending
    ensures key in pending ==> texts[Text(key)] == pending[key]
  {
    if Text(key) in texts {
      var other :| other in pending && Text(key) == Text(other);
      TextInjective(key, other);
    }
  }

  lemma RepresentsPut(texts: map<string, Marker>, pending: Pending, key: JobKey, marker: Marker)
    requires Represents(texts, pending) && ValidKey(key)
    ensures Represents(texts[Text(key) := marker], pending[key := marker])
  {
    hide Text, ValidKey;
    var texts', pending' := texts[Text(key) := marker], pending[key := marker];
    forall other | other in pending' ensures Text(other) in texts' && texts'[Text(other)] == pending'[other] {
      if Text(other) == Text(key) {
        TextInjective(other, key);
      }
    }
    forall text | text in texts' ensures exists other :: other in pending' && text == Text(other) {
      if text == Text(key) {
        assert key in pending';
      } else {
        var other :| other in pending && text == Text(other);
        assert other in pending';
      }
    }
  }

  ghost function Without(pending: Pending, gone: set<string>): Pending {
    map key | key in pending && Text(key) !in gone :: pending[key]
  }

  // Removing texts removes the keys they stand for.
  lemma RepresentsRemove(texts: map<string, Marker>, pending: Pending, gone: set<string>)
    requires Represents(texts, pending)
    ensures Represents(texts - gone, Without(pending, gone))
  {
    var texts', pending' := texts - gone, Without(pending, gone);
    forall text | text in texts' ensures exists key :: key in pending' && text == Text(key) {
      var key :| key in pending && text == Text(key);
      assert key in pending';
    }
  }
}
