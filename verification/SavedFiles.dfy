/** What a saved file guarantees: exactly which snapshots load back, and that a damaged file does not. */
module SavedFiles {
  import opened Types
  import opened Coding
  import opened Wire
  import opened Digest
  import opened Persistence
  import opened SnapshotChecks

  // --- the file -------------------------------------------------------------------------------

  // The parts of a file, where the loader looks for them.
  lemma FileParts(version: nat, payload: seq<Byte>)
    ensures var f, n := FileOf(version, payload), |payload|;
      && |f| == HEADER_SIZE + n + 8 && f[..4] == Le(MAGIC, 4) && f[4..8] == Le(version, 4)
      && f[9..17] == Le(n, 8) && f[17..17 + n] == payload && f[17 + n..17 + n + 8] == Le(Fnv1a64(payload), 8)
  {
    var h, n := FileHeader(version, |payload|), |payload|;
    var f := FileOf(version, payload);
    assert |h| == 17 && f == h + payload + Le(Fnv1a64(payload), 8);
    assert f[..17] == h;
    HeaderParts(version, n);
    assert f[..4] == f[..17][..4] && f[4..8] == f[..17][4..8] && f[9..17] == f[..17][9..17];
  }

  lemma HeaderParts(version: nat, n: nat)
    ensures var h := FileHeader(version, n); h[..4] == Le(MAGIC, 4) && h[4..8] == Le(version, 4) && h[9..17] == Le(n, 8)
  {}

  lemma FileReads(payload: seq<Byte>)
    requires |payload| < U64_LIMIT
    ensures var f := FileOf(VERSION, payload);
      && UnLe(f[..4]) == MAGIC && UnLe(f[4..8]) == VERSION && UnLe(f[9..17]) == |payload|
      && UnLe(f[17 + |payload|..17 + |payload| + 8]) == Fnv1a64(payload)
      && Unwrap(f) == if |payload| <= MAX_PAYLOAD then Ok(payload) else Err(OversizedFrame)
  {
    FileParts(VERSION, payload);
    Widths();
    UnLeOfLe(MAGIC, 4);
    UnLeOfLe(VERSION, 4);
    UnLeOfLe(|payload|, 8);
    UnLeOfLe(Fnv1a64(payload), 8);
  }

  /** A snapshot the loader accepts back: every bound and every integrity check holds. */
  ghost predicate Loadable(p: Persisted, order: seq<nat>) {
    && Storable(p, order) && Shaped(SnapshotSchema, SnapshotValue(p, order))
    && |Payload(p, order)| <= MAX_PAYLOAD && Passes(Bounds, SnapshotSchema, SnapshotValue(p, order))
    && IntegrityOk(p)
  }

  ghost predicate Enumerates(order: seq<nat>, ids: set<nat>) {
    forall id :: id in order <==> id in ids
  }

  /** Loading a saved snapshot gives the snapshot back, in whatever order its cancelled requests were written;
      it fails exactly when a bound or an integrity check does. */
  lemma LoadOfSave(p: Persisted, order: seq<nat>)
    requires p.formatVersion == VERSION && Storable(p, order) && Enumerates(order, p.cancelledRequests)
    requires |Payload(p, order)| < U64_LIMIT
    ensures if Loadable(p, order) then Load(Save(p, order)) == Ok(Reloaded(p)) else Load(Save(p, order)).Err?
  {
    var v := SnapshotValue(p, order);
    SnapshotIntegrity(p, order);
    RoundTrip(SnapshotSchema, v, []);
    assert Enc(SnapshotSchema, v) + [] == Payload(p, order);
    FileReads(Payload(p, order));
    SnapshotReads(p, order);
  }

  /** Whatever file the loader accepts, the snapshot record inside it passes every check, and encodes back to the
      very payload exactly when every boolean in the payload is the byte 0 or 1. */
  lemma LoadSound(s: seq<Byte>)
    requires Load(s).Ok?
    ensures Unwrap(s).Ok? && ParseSnapshot(Unwrap(s).value).Ok?
    ensures var payload := Unwrap(s).value; var v := ParseSnapshot(payload).value;
      Fits(SnapshotSchema, v) && (Enc(SnapshotSchema, v) == payload <==> PlainFlags(SnapshotSchema, payload))
  {
    var payload := Unwrap(s).value;
    DecSound(SnapshotSchema, payload);
    Reencodes(SnapshotSchema, payload);
    assert payload[..|payload|] == payload;
  }

  // --- damage ---------------------------------------------------------------------------------

  lemma SliceOfUpdate(s: seq<Byte>, i: nat, b: Byte, lo: nat, hi: nat)
    requires i < |s| && lo <= hi <= |s|
    ensures s[i := b][lo..hi] == if lo <= i < hi then s[lo..hi][i - lo := b] else s[lo..hi]
  {}

  // A changed byte changes the word it is part of.
  lemma WordChanges(s: seq<Byte>, i: nat, b: Byte, lo: nat, hi: nat)
    requires lo <= i < hi <= |s| && s[i] != b
    ensures UnLe(s[i := b][lo..hi]) != UnLe(s[lo..hi])
  {
    SliceOfUpdate(s, i, b, lo, hi);
    if UnLe(s[i := b][lo..hi]) == UnLe(s[lo..hi]) {
      UnLeInjective(s[i := b][lo..hi], s[lo..hi]);
    }
  }

  // Magic and version.
  lemma PrefixDamage(payload: seq<Byte>, i: nat, b: Byte)
    requires |payload| < U64_LIMIT && i < 8 && FileOf(VERSION, payload)[i] != b
    ensures Unwrap(FileOf(VERSION, payload)[i := b]).Err?
  {
    var f := FileOf(VERSION, payload);
    FileReads(payload);
    if i < 4 {
      WordChanges(f, i, b, 0, 4);
      assert f[0..4] == f[..4] && f[i := b][0..4] == f[i := b][..4];
    } else {
      WordChanges(f, i, b, 4, 8);
    }
  }

  // A length that grows asks for more than there is.
  lemma LengthDamage(payload: seq<Byte>, i: nat, b: Byte)
    requires |payload| < U64_LIMIT && 9 <= i < 17 && UnLe(FileOf(VERSION, payload)[i := b][9..17]) > |payload|
    ensures Unwrap(FileOf(VERSION, payload)[i := b]).Err?
  {
    FileParts(VERSION, payload);
  }

  lemma BodyDamage(payload: seq<Byte>, i: nat, b: Byte)
    requires |payload| < U64_LIMIT && 17 <= i < |FileOf(VERSION, payload)| && FileOf(VERSION, payload)[i] != b
    ensures Unwrap(FileOf(VERSION, payload)[i := b]).Err?
  {
    var f, n := FileOf(VERSION, payload), |payload|;
    FileParts(VERSION, payload);
    FileReads(payload);
    SealedDamage(f, n, i, b);
  }

  lemma SealedDamage(f: seq<Byte>, n: nat, i: nat, b: Byte)
    requires |f| == HEADER_SIZE + n + 8 && UnLe(f[9..17]) == n && UnLe(f[17 + n..17 + n + 8]) == Fnv1a64(f[17..17 + n])
    requires 17 <= i < |f| && f[i] != b
    ensures Unwrap(f[i := b]).Err?
  {
    SliceOfUpdate(f, i, b, 9, 17);
    if i < 17 + n { PayloadDamage(f, n, i, b); } else { FooterDamage(f, n, i, b); }
    MismatchCaught(f[i := b], n);
  }

  lemma PayloadDamage(f: seq<Byte>, n: nat, i: nat, b: Byte)
    requires |f| == HEADER_SIZE + n + 8 && UnLe(f[17 + n..17 + n + 8]) == Fnv1a64(f[17..17 + n])
    requires 17 <= i < 17 + n && f[i] != b
    ensures UnLe(f[i := b][17 + n..17 + n + 8]) != Fnv1a64(f[i := b][17..17 + n])
  {
    var payload := f[17..17 + n];
    SliceOfUpdate(f, i, b, 17, 17 + n);
    SliceOfUpdate(f, i, b, 17 + n, 17 + n + 8);
    assert payload[i - 17] == f[i];
    OneByteChangesDigest(payload, i - 17, b);
  }

  lemma FooterDamage(f: seq<Byte>, n: nat, i: nat, b: Byte)
    requires |f| == HEADER_SIZE + n + 8 && UnLe(f[17 + n..17 + n + 8]) == Fnv1a64(f[17..17 + n])
    requires 17 + n <= i < |f| && f[i] != b
    ensures UnLe(f[i := b][17 + n..17 + n + 8]) != Fnv1a64(f[i := b][17..17 + n])
  {
    SliceOfUpdate(f, i, b, 17, 17 + n);
    WordChanges(f, i, b, 17 + n, 17 + n + 8);
  }

  lemma MismatchCaught(g: seq<Byte>, n: nat)
    requires |g| == HEADER_SIZE + n + 8 && UnLe(g[9..17]) == n
    requires UnLe(g[17 + n..17 + n + 8]) != Fnv1a64(g[17..17 + n])
    ensures Unwrap(g).Err?
  {}

  /** Altering one byte of a saved file makes the load fail, unless it is the flags byte or it shrinks the
      recorded length. */
  lemma OneByteCaught(p: Persisted, order: seq<nat>, i: nat, b: Byte)
    requires p.formatVersion == VERSION && |Payload(p, order)| < U64_LIMIT
    requires i < |Save(p, order)| && Save(p, order)[i] != b && i != 8
    requires 9 <= i < 17 ==> UnLe(Save(p, order)[i := b][9..17]) > |Payload(p, order)|
    ensures Load(Save(p, order)[i := b]).Err?
  {
    if i < 8 { PrefixDamage(Payload(p, order), i, b); }
    else if i < 17 { LengthDamage(Payload(p, order), i, b); }
    else { BodyDamage(Payload(p, order), i, b); }
  }

  /** The flags byte is never looked at. */
  lemma FlagsIgnored(s: seq<Byte>, b: Byte)
    requires |s| >= HEADER_SIZE
    ensures Load(s[8 := b]) == Load(s)
  {
    var t := s[8 := b];
    assert t[..4] == s[..4] && t[4..8] == s[4..8] && t[9..17] == s[9..17];
    var n := UnLe(s[9..17]);
    if |s| >= HEADER_SIZE + n + 8 {
      assert t[17..17 + n] == s[17..17 + n] && t[17 + n..17 + n + 8] == s[17 + n..17 + n + 8];
    }
  }
}
