/** The patch table of a Doom-format archive
    (src/Graphics/CTexture/PatchTable.cpp): the ordered list of patch names
    held by the PNAMES lump, each with the list of names of the textures
    that use it. Textures refer to patches by their position in this list,
    so the order is what matters and duplicates are kept.

    The table also owns an "invalid patch" sentinel, named INVALID_PATCH,
    which lookups return when nothing matches; its usage list is part of the
    table's state because usage updates write to it.

    PNAMES is a little-endian 32-bit count followed by one 8-byte record per
    name, holding the name's characters followed by NUL bytes. */
module PatchTables {
  import opened Opt
  import opened Text
  import opened Patches
  import Textures

  /** One patch of the table: its name and the names of the textures using
      it, in the order they were recorded. */
  datatype PatchRecord = PatchRecord(name: string, usedIn: seq<string>)

  const InvalidName := "INVALID_PATCH"

  /** The names of [xs], in order, as [nameOf] reads them. */
  function NamesOf<T>(xs: seq<T>, nameOf: T -> string): (r: seq<string>)
    ensures |r| == |xs| && forall i :: 0 <= i < |xs| ==> r[i] == nameOf(xs[i])
  {
    seq(|xs|, i requires 0 <= i < |xs| => nameOf(xs[i]))
  }

  /** The names of the table's patches, in order. */
  function Names(ps: seq<PatchRecord>): (r: seq<string>)
    ensures |r| == |ps| && forall i :: 0 <= i < |ps| ==> r[i] == ps[i].name
  {
    NamesOf(ps, (p: PatchRecord) => p.name)
  }

  // ---------------------------------------------------------------------
  // Lookups
  // ---------------------------------------------------------------------

  /** Exact comparison (S_CMP) or case-insensitive comparison (CmpNoCase). */
  predicate NameMatch(a: string, b: string, exact: bool) {
    if exact then a == b else EqualsNoCase(a, b)
  }

  /** Position of the first name matching [name], or -1. */
  function FirstMatch(names: seq<string>, name: string, exact: bool): (r: int)
    ensures -1 <= r < |names|
    decreases |names|
  {
    if names == [] then -1
    else if NameMatch(names[0], name, exact) then 0
    else
      var k := FirstMatch(names[1..], name, exact);
      if k < 0 then -1 else k + 1
  }

  /** FirstMatch finds the first match: the name there matches, no earlier
      name does, and -1 means that no name matches at all. */
  lemma {:induction false} FirstMatchSpec(names: seq<string>, name: string, exact: bool)
    ensures var r := FirstMatch(names, name, exact);
            (r >= 0 ==> NameMatch(names[r], name, exact))
            && forall k :: 0 <= k < |names| && (r < 0 || k < r) ==> !NameMatch(names[k], name, exact)
    decreases |names|
  {
    if names != [] && !NameMatch(names[0], name, exact) {
      FirstMatchSpec(names[1..], name, exact);
      var r := FirstMatch(names, name, exact);
      forall k | 0 <= k < |names| && (r < 0 || k < r)
        ensures !NameMatch(names[k], name, exact)
      {
        if k > 0 {
          assert names[k] == names[1..][k - 1];
        }
      }
    }
  }

  /** An exact match is also a case-insensitive one, so the case-insensitive
      search never finds a later position than the exact one. */
  lemma NoCaseFindsNoLater(names: seq<string>, name: string)
    requires FirstMatch(names, name, true) >= 0
    ensures 0 <= FirstMatch(names, name, false) <= FirstMatch(names, name, true)
  {
    var e := FirstMatch(names, name, true);
    FirstMatchSpec(names, name, true);
    FirstMatchSpec(names, name, false);
    assert NameMatch(names[e], name, false);
  }

  /** The linear scan shared by patch(name), patchIndex(name),
      patchEntry(name) and the duplicate check of addPatch. */
  method Find(names: seq<string>, name: string, exact: bool) returns (r: int)
    ensures r == FirstMatch(names, name, exact)
  {
    var a := 0;
    while a < |names|
      invariant 0 <= a <= |names|
      invariant FirstMatch(names, name, exact) == Shifted(a, FirstMatch(names[a..], name, exact))
      decreases |names| - a
    {
      if NameMatch(names[a], name, exact) {
        return a;
      }
      assert names[a..][1..] == names[a + 1..];
      a := a + 1;
    }
    r := -1;
  }

  /** A position found in a suffix starting at [a], as a position in the
      whole list. */
  function Shifted(a: nat, k: int): int {
    if k < 0 then -1 else a + k
  }

  /** Position of the first name whose patches-namespace resource is
      [entry], or -1 (patchIndex(ArchiveEntry*)). */
  function FirstWithEntry<E(==)>(names: seq<string>, entry: Option<E>, find: (string, Namespace) -> Option<E>): (r: int)
    ensures -1 <= r < |names|
    decreases |names|
  {
    if names == [] then -1
    else if find(names[0], Namespace.Patches) == entry then 0
    else
      var k := FirstWithEntry(names[1..], entry, find);
      if k < 0 then -1 else k + 1
  }

  lemma {:induction false} FirstWithEntrySpec<E>(names: seq<string>, entry: Option<E>, find: (string, Namespace) -> Option<E>)
    ensures var r := FirstWithEntry(names, entry, find);
            (r >= 0 ==> find(names[r], Namespace.Patches) == entry)
            && forall k :: 0 <= k < |names| && (r < 0 || k < r) ==> find(names[k], Namespace.Patches) != entry
    decreases |names|
  {
    if names != [] && find(names[0], Namespace.Patches) != entry {
      FirstWithEntrySpec(names[1..], entry, find);
      var r := FirstWithEntry(names, entry, find);
      forall k | 0 <= k < |names| && (r < 0 || k < r)
        ensures find(names[k], Namespace.Patches) != entry
      {
        if k > 0 {
          assert names[k] == names[1..][k - 1];
        }
      }
    }
  }

  method FindEntry<E(==)>(names: seq<string>, entry: Option<E>, find: (string, Namespace) -> Option<E>) returns (r: int)
    ensures r == FirstWithEntry(names, entry, find)
  {
    var a := 0;
    while a < |names|
      invariant 0 <= a <= |names|
      invariant FirstWithEntry(names, entry, find) == Shifted(a, FirstWithEntry(names[a..], entry, find))
      decreases |names| - a
    {
      if find(names[a], Namespace.Patches) == entry {
        return a;
      }
      assert names[a..][1..] == names[a + 1..];
      a := a + 1;
    }
    r := -1;
  }

  // ---------------------------------------------------------------------
  // The PNAMES format
  // ---------------------------------------------------------------------

  /** The four little-endian bytes of a count. */
  function LE32Bytes(n: nat): (r: seq<byte>)
    requires n < 0x1_0000_0000
    ensures |r| == 4
  {
    [n % 0x100, n / 0x100 % 0x100, n / 0x1_0000 % 0x100, n / 0x100_0000]
  }

  /** The count held by the first four bytes. */
  function LE32(b: seq<byte>): (n: nat)
    requires |b| >= 4
    ensures n < 0x1_0000_0000
  {
    var b0, b1, b2, b3: int := b[0], b[1], b[2], b[3];
    b0 + 0x100 * b1 + 0x1_0000 * b2 + 0x100_0000 * b3
  }

  lemma LE32RoundTrip(n: nat, rest: seq<byte>)
    requires n < 0x1_0000_0000
    ensures LE32(LE32Bytes(n) + rest) == n
  {
    var b := LE32Bytes(n) + rest;
    var q1 := n / 0x100;
    var q2 := q1 / 0x100;
    assert n == b[0] + 0x100 * q1;
    assert n / 0x1_0000 == q2;
    assert q1 == b[1] + 0x100 * q2;
    assert n / 0x100_0000 == q2 / 0x100;
    assert q2 == b[2] + 0x100 * b[3];
  }

  /** The characters of [s] before its first NUL: what a C string holding
      [s] reads as. */
  function UntilNul(s: string): (r: string)
    ensures |r| <= |s|
  {
    if s == [] || s[0] == 0 as char then "" else [s[0]] + UntilNul(s[1..])
  }

  /** UntilNul stops exactly at the first NUL: what it keeps is a NUL-free
      prefix, followed in [s] by a NUL unless it is all of [s]. */
  lemma {:induction false} UntilNulSpec(s: string)
    ensures var r := UntilNul(s);
            r == s[..|r|] && NulFree(r) && (|r| < |s| ==> s[|r|] == 0 as char)
    decreases |s|
  {
    if s != [] && s[0] != 0 as char {
      UntilNulSpec(s[1..]);
      var r := UntilNul(s[1..]);
      assert s == [s[0]] + s[1..];
      assert forall i :: 1 <= i <= |r| ==> ([s[0]] + r)[i] == r[i - 1];
    }
  }

  predicate NulFree(s: string) {
    forall i :: 0 <= i < |s| ==> s[i] != 0 as char
  }

  /** A name writePNAMES can store: at most eight characters (a longer one
      overruns the record buffer), each fitting in a byte. */
  predicate Storable(name: string) {
    |name| <= 8 && forall i :: 0 <= i < |name| ==> name[i] as int < 0x100
  }

  /** The record of one name: a zero-filled 8-byte buffer into which the
      name is copied up to its first NUL (strncpy). */
  function Record(name: string): (r: seq<byte>)
    requires Storable(name)
    ensures |r| == 8
    ensures NulFree(name) ==> forall k :: 0 <= k < |name| ==> r[k] == name[k] as int
    ensures NulFree(name) ==> forall k :: |name| <= k < 8 ==> r[k] == 0
  {
    var c := UntilNul(name);
    var r := seq(8, k requires 0 <= k < 8 => if k < |c| then name[k] as int else 0);
    if NulFree(name) then UntilNulOfPadded(name, []); assert name + [] == name; r else r
  }

  /** The name read back from an 8-byte record: the characters before the
      first NUL, upper-cased. */
  function RecordName(rec: seq<byte>): (name: string)
    requires |rec| == 8
    ensures |name| <= 8
  {
    Upper(UntilNul(seq(8, k requires 0 <= k < 8 => rec[k] as char)))
  }

  function Records(names: seq<string>): (r: seq<byte>)
    requires forall i :: 0 <= i < |names| ==> Storable(names[i])
    ensures |r| == 8 * |names|
  {
    if names == [] then [] else Record(names[0]) + Records(names[1..])
  }

  /** The records follow one another in the order of the names: name [i]
      is stored, as written, in bytes 8i to 8i + 7. */
  lemma {:induction false} RecordsSpec(names: seq<string>)
    requires forall i :: 0 <= i < |names| ==> Storable(names[i])
    ensures forall i :: 0 <= i < |names| ==> Records(names)[8 * i..8 * i + 8] == Record(names[i])
    decreases |names|
  {
    if names != [] {
      RecordsSpec(names[1..]);
      var r := Records(names);
      var rest := Records(names[1..]);
      assert r == Record(names[0]) + rest;
      forall i | 0 <= i < |names|
        ensures r[8 * i..8 * i + 8] == Record(names[i])
      {
        if i > 0 {
          assert r[8 * i..8 * i + 8] == rest[8 * (i - 1)..8 * (i - 1) + 8];
        }
      }
    }
  }

  /** The PNAMES lump for a list of names. */
  function EncodePNAMES(names: seq<string>): (r: seq<byte>)
    requires |names| < 0x8000_0000
    requires forall i :: 0 <= i < |names| ==> Storable(names[i])
  {
    LE32Bytes(|names|) + Records(names)
  }

  /** writePNAMES produces four count bytes and eight bytes per name, the
      count reading back as the number of names. */
  lemma EncodeLayout(names: seq<string>)
    requires |names| < 0x8000_0000
    requires forall i :: 0 <= i < |names| ==> Storable(names[i])
    ensures |EncodePNAMES(names)| == 4 + 8 * |names|
    ensures LE32(EncodePNAMES(names)) == |names|
  {
    LE32RoundTrip(|names|, Records(names));
  }

  /** Outcome of reading a PNAMES lump: success, and the names read, which
      on failure are those read before the short record. */
  datatype Decoded = Decoded(ok: bool, names: seq<string>)

  /** Reads [n] records starting at byte [off]. */
  function DecodeRecords(data: seq<byte>, off: nat, n: nat): (r: Decoded)
    decreases n
  {
    if n == 0 then Decoded(true, [])
    else if off + 8 > |data| then Decoded(false, [])
    else
      var rest := DecodeRecords(data, off + 8, n - 1);
      Decoded(rest.ok, [RecordName(data[off..off + 8])] + rest.names)
  }

  /** What loadPNAMES reads from a lump. */
  function DecodePNAMES(data: seq<byte>): Decoded {
    if |data| < 4 then Decoded(false, []) else DecodeRecords(data, 4, LE32(data))
  }

  /** Reading succeeds exactly when every declared record is complete; on
      failure the names of all complete records are kept. */
  lemma {:induction false} DecodeRecordsOutcome(data: seq<byte>, off: nat, n: nat)
    requires off <= |data|
    ensures var r := DecodeRecords(data, off, n);
            (r.ok <==> off + 8 * n <= |data|)
            && |r.names| == if r.ok then n else (|data| - off) / 8
    decreases n
  {
    if n > 0 && off + 8 <= |data| {
      DecodeRecordsOutcome(data, off + 8, n - 1);
    }
  }

  /** The whole-lump form: loadPNAMES fails when the count is missing or a
      declared record is short, and then holds the names read so far. */
  lemma DecodeOutcome(data: seq<byte>)
    ensures |data| < 4 ==> DecodePNAMES(data) == Decoded(false, [])
    ensures |data| >= 4 ==>
              (DecodePNAMES(data).ok <==> 4 + 8 * LE32(data) <= |data|)
              && |DecodePNAMES(data).names| == if DecodePNAMES(data).ok then LE32(data) else (|data| - 4) / 8
  {
    if |data| >= 4 {
      DecodeRecordsOutcome(data, 4, LE32(data));
    }
  }

  /** Every name read is upper-case. */
  lemma {:induction false} DecodedAreUpper(data: seq<byte>, off: nat, n: nat)
    ensures forall i :: 0 <= i < |DecodeRecords(data, off, n).names| ==>
              Upper(DecodeRecords(data, off, n).names[i]) == DecodeRecords(data, off, n).names[i]
    decreases n
  {
    if n > 0 && off + 8 <= |data| {
      DecodedAreUpper(data, off + 8, n - 1);
      var r := DecodeRecords(data, off, n);
      var rest := DecodeRecords(data, off + 8, n - 1);
      var first := RecordName(data[off..off + 8]);
      assert Upper(first) == first;
      forall i | 0 <= i < |r.names|
        ensures Upper(r.names[i]) == r.names[i]
      {
        if i > 0 {
          assert r.names[i] == rest.names[i - 1];
        }
      }
    }
  }

  /** A NUL-free name followed by NULs reads back as itself. */
  lemma {:induction false} UntilNulOfPadded(name: string, pad: string)
    requires NulFree(name)
    requires pad == [] || pad[0] == 0 as char
    ensures UntilNul(name + pad) == name
    decreases |name|
  {
    if name != [] {
      assert (name + pad)[1..] == name[1..] + pad;
      UntilNulOfPadded(name[1..], pad);
    } else {
      assert name + pad == pad;
    }
  }

  /** A storable NUL-free name survives its record, upper-cased. */
  lemma RecordRoundTrip(name: string)
    requires Storable(name) && NulFree(name)
    ensures RecordName(Record(name)) == Upper(name)
  {
    var rec := Record(name);
    UntilNulOfPadded(name, []);
    assert name + [] == name;
    var chars := seq(8, k requires 0 <= k < 8 => rec[k] as char);
    var pad := seq(8 - |name|, k requires 0 <= k < 8 - |name| => 0 as char);
    assert chars == name + pad;
    UntilNulOfPadded(name, pad);
  }

  function Uppered(names: seq<string>): (r: seq<string>)
    ensures |r| == |names| && forall i :: 0 <= i < |names| ==> r[i] == Upper(names[i])
  {
    seq(|names|, i requires 0 <= i < |names| => Upper(names[i]))
  }

  lemma {:induction false} DecodeRecordsOfRecords(data: seq<byte>, off: nat, names: seq<string>)
    requires forall i :: 0 <= i < |names| ==> Storable(names[i]) && NulFree(names[i])
    requires off + 8 * |names| <= |data| && data[off..off + 8 * |names|] == Records(names)
    ensures DecodeRecords(data, off, |names|) == Decoded(true, Uppered(names))
    decreases |names|
  {
    if names != [] {
      var recs := Records(names);
      assert data[off..off + 8] == recs[..8] == Record(names[0]);
      assert data[off + 8..off + 8 * |names|] == recs[8..] == Records(names[1..]);
      DecodeRecordsOfRecords(data, off + 8, names[1..]);
      RecordRoundTrip(names[0]);
      assert [Upper(names[0])] + Uppered(names[1..]) == Uppered(names);
    }
  }

  /** Round trip: loading what writePNAMES wrote gives back the same names,
      in the same order and with duplicates kept, upper-cased. */
  lemma PNAMESRoundTrip(names: seq<string>)
    requires |names| < 0x8000_0000
    requires forall i :: 0 <= i < |names| ==> Storable(names[i]) && NulFree(names[i])
    ensures DecodePNAMES(EncodePNAMES(names)) == Decoded(true, Uppered(names))
  {
    var data := EncodePNAMES(names);
    EncodeLayout(names);
    assert data[4..4 + 8 * |names|] == Records(names);
    DecodeRecordsOfRecords(data, 4, names);
  }

  /** [names] read before the outcome [r] of the remaining records. */
  function Prepend(names: seq<string>, r: Decoded): Decoded {
    Decoded(r.ok, names + r.names)
  }

  /** One record read: its name moves from the rest to the names read. */
  lemma DecodeStep(data: seq<byte>, off: nat, m: nat, names: seq<string>)
    requires m > 0 && off + 8 <= |data|
    ensures Prepend(names, DecodeRecords(data, off, m))
         == Prepend(names + [RecordName(data[off..off + 8])], DecodeRecords(data, off + 8, m - 1))
  {
    var rest := DecodeRecords(data, off + 8, m - 1);
    assert names + ([RecordName(data[off..off + 8])] + rest.names) == (names + [RecordName(data[off..off + 8])]) + rest.names;
  }

  /** The loop of loadPNAMES that reads the records. */
  method ReadRecords(data: seq<byte>, n: nat) returns (ok: bool, names: seq<string>)
    ensures Decoded(ok, names) == DecodeRecords(data, 4, n)
  {
    names := [];
    var a := 0;
    var off := 4;
    assert Prepend([], DecodeRecords(data, 4, n)) == DecodeRecords(data, 4, n);
    while a < n
      invariant a <= n && off == 4 + 8 * a
      invariant Prepend(names, DecodeRecords(data, off, n - a)) == DecodeRecords(data, 4, n)
      decreases n - a
    {
      if off + 8 > |data| {
        assert names + [] == names;
        return false, names;
      }
      var name := RecordName(data[off..off + 8]);
      DecodeStep(data, off, n - a, names);
      names := names + [name];
      off := off + 8;
      a := a + 1;
    }
    assert names + [] == names;
    ok := true;
  }

  lemma {:induction false} RecordsAppend(names: seq<string>, name: string)
    requires forall i :: 0 <= i < |names| ==> Storable(names[i])
    requires Storable(name)
    ensures forall i :: 0 <= i < |names + [name]| ==> Storable((names + [name])[i])
    ensures Records(names + [name]) == Records(names) + Record(name)
    decreases |names|
  {
    var all := names + [name];
    assert forall i :: 0 <= i < |all| ==> all[i] == if i < |names| then names[i] else name;
    if names != [] {
      assert all[1..] == names[1..] + [name];
      RecordsAppend(names[1..], name);
      assert Records(all) == Record(names[0]) + Records(names[1..] + [name]);
    } else {
      assert all == [name];
      assert Records(all) == Record(name) + Records([]);
    }
  }

  /** The loop of writePNAMES that writes the records. */
  method WriteRecords(names: seq<string>) returns (data: seq<byte>)
    requires |names| < 0x8000_0000
    requires forall i :: 0 <= i < |names| ==> Storable(names[i])
    ensures data == EncodePNAMES(names)
  {
    data := LE32Bytes(|names|);
    var a := 0;
    while a < |names|
      invariant 0 <= a <= |names|
      invariant data == LE32Bytes(|names|) + Records(names[..a])
    {
      RecordsAppend(names[..a], names[a]);
      assert names[..a + 1] == names[..a] + [names[a]];
      data := data + Record(names[a]);
      a := a + 1;
    }
    assert names[..a] == names;
  }

  // ---------------------------------------------------------------------
  // Usage lists
  // ---------------------------------------------------------------------

  /** [us] without any occurrence of [tex] (Patch::removeTextureUsage). */
  function Without(us: seq<string>, tex: string): (r: seq<string>)
    ensures |r| <= |us|
  {
    if us == [] then []
    else if us[0] == tex then Without(us[1..], tex)
    else [us[0]] + Without(us[1..], tex)
  }

  lemma {:induction false} WithoutMembers(us: seq<string>, tex: string)
    ensures forall s :: s in Without(us, tex) <==> s in us && s != tex
    decreases |us|
  {
    if us != [] {
      WithoutMembers(us[1..], tex);
      assert us == [us[0]] + us[1..];
    }
  }

  lemma {:induction false} WithoutAppend(a: seq<string>, b: seq<string>, tex: string)
    ensures Without(a + b, tex) == Without(a, tex) + Without(b, tex)
    decreases |a|
  {
    if a == [] {
      assert a + b == b;
    } else {
      assert (a + b)[1..] == a[1..] + b;
      WithoutAppend(a[1..], b, tex);
    }
  }

  lemma {:induction false} WithoutIdempotent(us: seq<string>, tex: string)
    ensures Without(Without(us, tex), tex) == Without(us, tex)
    decreases |us|
  {
    if us != [] {
      WithoutIdempotent(us[1..], tex);
      if us[0] != tex {
        assert ([us[0]] + Without(us[1..], tex))[1..] == Without(us[1..], tex);
      }
    }
  }

  /** [n] copies of [s]. */
  function Repeat(s: string, n: nat): (r: seq<string>)
    ensures |r| == n && forall i :: 0 <= i < n ==> r[i] == s
  {
    seq(n, _ => s)
  }

  lemma {:induction false} WithoutRepeat(tex: string, n: nat)
    ensures Without(Repeat(tex, n), tex) == []
    decreases n
  {
    if n > 0 {
      assert Repeat(tex, n)[1..] == Repeat(tex, n - 1);
      WithoutRepeat(tex, n - 1);
    }
  }

  /** Every patch with [tex] taken out of its usage list. */
  function Stripped(ps: seq<PatchRecord>, tex: string): (r: seq<PatchRecord>)
    ensures |r| == |ps|
    ensures forall i :: 0 <= i < |ps| ==> r[i].name == ps[i].name && r[i].usedIn == Without(ps[i].usedIn, tex)
  {
    seq(|ps|, i requires 0 <= i < |ps| => ps[i].(usedIn := Without(ps[i].usedIn, tex)))
  }

  /** Stripping takes [tex] out of every usage list and keeps every other
      entry. */
  lemma StrippedRemovesTexture(ps: seq<PatchRecord>, tex: string)
    ensures forall i, s :: 0 <= i < |ps| ==> (s in Stripped(ps, tex)[i].usedIn <==> s in ps[i].usedIn && s != tex)
  {
    forall i | 0 <= i < |ps| {
      WithoutMembers(ps[i].usedIn, tex);
    }
  }

  /** The patches and the sentinel's usage list while usage is updated. */
  datatype Usage = Usage(patches: seq<PatchRecord>, invalid: seq<string>)

  /** One reference to patch [ref]: [tex] is appended to the usage list of
      the first patch named exactly [ref], or to the sentinel's. */
  function Credited(u: Usage, ref: string, tex: string): (r: Usage)
    ensures Names(r.patches) == Names(u.patches)
    ensures var k := FirstMatch(Names(u.patches), ref, true);
            k >= 0 ==> r.invalid == u.invalid && r.patches[k].usedIn == u.patches[k].usedIn + [tex]
                       && forall j :: 0 <= j < |u.patches| && j != k ==> r.patches[j] == u.patches[j]
    ensures FirstMatch(Names(u.patches), ref, true) < 0 ==> r == u.(invalid := u.invalid + [tex])
  {
    var k := FirstMatch(Names(u.patches), ref, true);
    if k >= 0 then
      var r := Usage(u.patches[k := u.patches[k].(usedIn := u.patches[k].usedIn + [tex])], u.invalid);
      assert Names(r.patches) == Names(u.patches);
      r
    else Usage(u.patches, u.invalid + [tex])
  }

  /** The references in order, first to last. */
  function CreditAll(u: Usage, refs: seq<string>, tex: string): (r: Usage)
    decreases |refs|
  {
    if refs == [] then u else CreditAll(Credited(u, refs[0], tex), refs[1..], tex)
  }

  /** updatePatchUsage: strip [tex] from every patch, then credit each
      reference of the texture. */
  function UsageUpdated(ps: seq<PatchRecord>, invalid: seq<string>, tex: string, refs: seq<string>): Usage {
    CreditAll(Usage(Stripped(ps, tex), invalid), refs, tex)
  }

  /** How many of [refs] resolve to position [k] (-1: to the sentinel). */
  function RefsTo(names: seq<string>, refs: seq<string>, k: int): (n: nat)
    ensures n <= |refs|
  {
    if refs == [] then 0
    else (if FirstMatch(names, refs[0], true) == k then 1 else 0) + RefsTo(names, refs[1..], k)
  }

  /** Crediting appends [tex] once per resolving reference, with no
      deduplication, and leaves the names alone. */
  lemma {:induction false} CreditAllShape(u: Usage, refs: seq<string>, tex: string)
    ensures var r := CreditAll(u, refs, tex);
            Names(r.patches) == Names(u.patches)
            && r.invalid == u.invalid + Repeat(tex, RefsTo(Names(u.patches), refs, -1))
            && forall k :: 0 <= k < |u.patches| ==>
                 r.patches[k].usedIn == u.patches[k].usedIn + Repeat(tex, RefsTo(Names(u.patches), refs, k))
    decreases |refs|
  {
    if refs == [] {
      assert u.invalid + Repeat(tex, 0) == u.invalid;
      forall k | 0 <= k < |u.patches|
        ensures u.patches[k].usedIn == u.patches[k].usedIn + Repeat(tex, 0)
      {
        assert Repeat(tex, 0) == [];
      }
    } else {
      var names := Names(u.patches);
      var c := Credited(u, refs[0], tex);
      var hit := FirstMatch(names, refs[0], true);
      CreditAllShape(c, refs[1..], tex);
      var r := CreditAll(u, refs, tex);
      assert |c.patches| == |u.patches|;
      if hit < 0 {
        assert [tex] + Repeat(tex, RefsTo(names, refs[1..], -1)) == Repeat(tex, RefsTo(names, refs, -1));
        assert r.invalid == (u.invalid + [tex]) + Repeat(tex, RefsTo(names, refs[1..], -1));
      } else {
        assert Repeat(tex, RefsTo(names, refs[1..], -1)) == Repeat(tex, RefsTo(names, refs, -1));
      }
      forall k | 0 <= k < |u.patches|
        ensures r.patches[k].usedIn == u.patches[k].usedIn + Repeat(tex, RefsTo(names, refs, k))
      {
        var later := Repeat(tex, RefsTo(names, refs[1..], k));
        assert r.patches[k].usedIn == c.patches[k].usedIn + later;
        if k == hit {
          assert [tex] + later == Repeat(tex, RefsTo(names, refs, k));
          assert r.patches[k].usedIn == u.patches[k].usedIn + ([tex] + later);
        } else {
          assert later == Repeat(tex, RefsTo(names, refs, k));
        }
      }
    }
  }

  /** After updatePatchUsage every patch keeps its name and the other
      textures' entries in order, followed by one entry for the texture per
      reference that resolves to it; references matching no patch are
      recorded on the sentinel. */
  lemma UsageAfterUpdate(ps: seq<PatchRecord>, invalid: seq<string>, tex: string, refs: seq<string>)
    ensures var u := UsageUpdated(ps, invalid, tex, refs);
            Names(u.patches) == Names(ps)
            && u.invalid == invalid + Repeat(tex, RefsTo(Names(ps), refs, -1))
            && forall k :: 0 <= k < |ps| ==>
                 u.patches[k].usedIn == Without(ps[k].usedIn, tex) + Repeat(tex, RefsTo(Names(ps), refs, k))
  {
    var s := Stripped(ps, tex);
    assert Names(s) == Names(ps);
    CreditAllShape(Usage(s, invalid), refs, tex);
  }

  /** Updating the usage of the same texture twice leaves the patches as
      one update does: stale entries of the texture are always replaced. */
  lemma UpdateTwice(ps: seq<PatchRecord>, invalid: seq<string>, tex: string, refs: seq<string>)
    ensures var once := UsageUpdated(ps, invalid, tex, refs);
            UsageUpdated(once.patches, once.invalid, tex, refs).patches == once.patches
  {
    var once := UsageUpdated(ps, invalid, tex, refs);
    var twice := UsageUpdated(once.patches, once.invalid, tex, refs);
    UsageAfterUpdate(ps, invalid, tex, refs);
    UsageAfterUpdate(once.patches, once.invalid, tex, refs);
    forall k | 0 <= k < |ps|
      ensures twice.patches[k] == once.patches[k]
    {
      var tail := Repeat(tex, RefsTo(Names(ps), refs, k));
      WithoutAppend(Without(ps[k].usedIn, tex), tail, tex);
      WithoutIdempotent(ps[k].usedIn, tex);
      WithoutRepeat(tex, RefsTo(Names(ps), refs, k));
      assert Without(ps[k].usedIn, tex) + [] == Without(ps[k].usedIn, tex);
      assert twice.patches[k].name == once.patches[k].name;
    }
  }

  /** The loop of updatePatchUsage that strips [tex]. */
  method StripUsage(ps0: seq<PatchRecord>, tex: string) returns (ps: seq<PatchRecord>)
    ensures ps == Stripped(ps0, tex)
  {
    ps := ps0;
    var a := 0;
    while a < |ps|
      invariant 0 <= a <= |ps| == |ps0|
      invariant forall i :: 0 <= i < a ==> ps[i] == ps0[i].(usedIn := Without(ps0[i].usedIn, tex))
      invariant forall i :: a <= i < |ps| ==> ps[i] == ps0[i]
    {
      ps := ps[a := ps[a].(usedIn := Without(ps[a].usedIn, tex))];
      a := a + 1;
    }
  }

  /** The loop of updatePatchUsage that records each reference. */
  method CreditRefs(u0: Usage, refs: seq<string>, tex: string) returns (u: Usage)
    ensures u == CreditAll(u0, refs, tex)
  {
    u := u0;
    var a := 0;
    while a < |refs|
      invariant 0 <= a <= |refs|
      invariant CreditAll(u, refs[a..], tex) == CreditAll(u0, refs, tex)
    {
      assert refs[a..][1..] == refs[a + 1..];
      var k := Find(Names(u.patches), refs[a], true);
      if k >= 0 {
        u := u.(patches := u.patches[k := u.patches[k].(usedIn := u.patches[k].usedIn + [tex])]);
      } else {
        u := u.(invalid := u.invalid + [tex]);
      }
      a := a + 1;
    }
  }

  /** The names of a texture's patches, in order. */
  function RefNames(ps: seq<Patch>): (r: seq<string>)
    ensures |r| == |ps| && forall i :: 0 <= i < |ps| ==> r[i] == ps[i].name
  {
    NamesOf(ps, (p: Patch) => p.name)
  }

  // ---------------------------------------------------------------------
  // The table
  // ---------------------------------------------------------------------

  class PatchTable {
    var patches: seq<PatchRecord>
    /** The usage list of the INVALID_PATCH sentinel. */
    var invalidUsedIn: seq<string>
    /** Change notifications suspended. */
    var muted: bool

    constructor ()
      ensures patches == [] && invalidUsedIn == [] && !muted
    {
      patches := [];
      invalidUsedIn := [];
      muted := false;
    }

    /** patch(index): the sentinel when [index] is out of range. */
    function PatchAt(index: nat): (p: PatchRecord)
      reads this
      ensures index < |patches| ==> p == patches[index]
      ensures index >= |patches| ==> p.name == InvalidName && p.usedIn == invalidUsedIn
    {
      if index < |patches| then patches[index] else PatchRecord(InvalidName, invalidUsedIn)
    }

    /** patchName(index): the empty string when [index] is out of range. */
    function PatchName(index: nat): (r: string)
      reads this
      ensures index < |patches| ==> r == PatchAt(index).name
      ensures index >= |patches| ==> r == ""
    {
      if index < |patches| then patches[index].name else ""
    }

    /** patch(name): the first patch named exactly [name], or the sentinel. */
    method PatchNamed(name: string) returns (p: PatchRecord)
      ensures p.name == name || (p.name == InvalidName && p.usedIn == invalidUsedIn)
      ensures var k := FirstMatch(Names(patches), name, true);
              p == if k >= 0 then patches[k] else PatchAt(|patches|)
    {
      var k := Find(Names(patches), name, true);
      FirstMatchSpec(Names(patches), name, true);
      p := PatchAt(if k >= 0 then k else |patches|);
    }

    /** patchIndex(name): the first case-insensitive match, or -1. */
    method PatchIndex(name: string) returns (r: int)
      ensures -1 <= r < |patches|
      ensures r == FirstMatch(Names(patches), name, false)
    {
      r := Find(Names(patches), name, false);
    }

    /** patchIndex(entry): the first patch whose patches-namespace resource
        is [entry], or -1. */
    method PatchIndexOfEntry<E(==)>(entry: Option<E>, find: (string, Namespace) -> Option<E>) returns (r: int)
      ensures r == FirstWithEntry(Names(patches), entry, find)
    {
      r := FindEntry(Names(patches), entry, find);
    }

    /** patchEntry(index): the patches namespace is preferred to graphics. */
    function PatchEntryAt<E>(index: nat, find: (string, Namespace) -> Option<E>): (e: Option<E>)
      reads this
      ensures index >= |patches| ==> e.None?
      ensures index < |patches| ==> e == FirstHit(patches[index].name, [Namespace.Patches, Graphics], find)
    {
      if index >= |patches| then None
      else
        var e := find(patches[index].name, Namespace.Patches);
        if e.None? then find(patches[index].name, Graphics) else e
    }

    /** patchEntry(name): the entry of the first case-insensitive match. */
    method PatchEntryNamed<E>(name: string, find: (string, Namespace) -> Option<E>) returns (e: Option<E>)
      ensures var k := FirstMatch(Names(patches), name, false);
              e == if k < 0 then None else PatchEntryAt(k, find)
    {
      var k := Find(Names(patches), name, false);
      if k < 0 {
        return None;
      }
      e := PatchEntryAt(k, find);
    }

    /** addPatch: refused when duplicates are not allowed and a patch of
        exactly that name exists; otherwise appended with no usage. */
    method AddPatch(name: string, allowDup: bool) returns (ok: bool)
      modifies this
      ensures ok <==> allowDup || name !in Names(old(patches))
      ensures patches == if ok then old(patches) + [PatchRecord(name, [])] else old(patches)
      ensures invalidUsedIn == old(invalidUsedIn) && muted == old(muted)
    {
      if !allowDup {
        var k := Find(Names(patches), name, true);
        FirstMatchSpec(Names(patches), name, true);
        if k >= 0 {
          return false;
        }
      }
      patches := patches + [PatchRecord(name, [])];
      ok := true;
    }

    /** removePatch: erases the patch at [index] if there is one. */
    method RemovePatch(index: nat) returns (ok: bool)
      modifies this
      ensures ok <==> index < |old(patches)|
      ensures patches == if ok then old(patches)[..index] + old(patches)[index + 1..] else old(patches)
      ensures invalidUsedIn == old(invalidUsedIn) && muted == old(muted)
    {
      if index >= |patches| {
        return false;
      }
      patches := patches[..index] + patches[index + 1..];
      ok := true;
    }

    /** replacePatch: renames the patch at [index], keeping its usage. */
    method ReplacePatch(index: nat, newName: string) returns (ok: bool)
      modifies this
      ensures ok <==> index < |old(patches)|
      ensures patches == if ok then old(patches)[index := old(patches)[index].(name := newName)] else old(patches)
      ensures invalidUsedIn == old(invalidUsedIn) && muted == old(muted)
    {
      if index >= |patches| {
        return false;
      }
      patches := patches[index := patches[index].(name := newName)];
      ok := true;
    }

    /** loadPNAMES, [entry] being the lump's bytes or None for no entry.
        The table is emptied and muted first; a lump too short for its
        count or for a declared record fails with the names read so far
        kept and the table left muted. */
    method LoadPNAMES(entry: Option<seq<byte>>) returns (ok: bool)
      modifies this
      ensures entry.None? ==> !ok && patches == old(patches) && muted == old(muted)
      ensures entry.Some? ==>
                ok == DecodePNAMES(entry.value).ok && muted == !ok
                && Names(patches) == DecodePNAMES(entry.value).names
                && forall i :: 0 <= i < |patches| ==> patches[i].usedIn == []
      ensures invalidUsedIn == old(invalidUsedIn)
    {
      if entry.None? {
        return false;
      }
      var data := entry.value;
      muted := true;
      patches := [];
      if |data| < 4 {
        return false;
      }
      var names;
      ok, names := ReadRecords(data, LE32(data));
      patches := seq(|names|, i requires 0 <= i < |names| => PatchRecord(names[i], []));
      if ok {
        muted := false;
      }
    }

    /** writePNAMES: the lump's new bytes, or None when there is no entry
        to write to. */
    method WritePNAMES(entry: Option<seq<byte>>) returns (r: Option<seq<byte>>)
      requires |patches| < 0x8000_0000
      requires forall i :: 0 <= i < |patches| ==> Storable(patches[i].name)
      ensures entry.None? ==> r.None?
      ensures entry.Some? ==> r == Some(EncodePNAMES(Names(patches)))
    {
      if entry.None? {
        return None;
      }
      var data := WriteRecords(Names(patches));
      r := Some(data);
    }

    /** clearPatchUsage: every usage list of the table emptied, names kept;
        the sentinel's list is not touched. */
    method ClearPatchUsage()
      modifies this
      ensures patches == seq(|old(patches)|, i requires 0 <= i < |old(patches)| => old(patches)[i].(usedIn := []))
      ensures invalidUsedIn == old(invalidUsedIn) && muted == old(muted)
    {
      var a := 0;
      while a < |patches|
        invariant 0 <= a <= |patches| == |old(patches)|
        invariant forall i :: 0 <= i < a ==> patches[i] == old(patches)[i].(usedIn := [])
        invariant forall i :: a <= i < |patches| ==> patches[i] == old(patches)[i]
        invariant invalidUsedIn == old(invalidUsedIn) && muted == old(muted)
      {
        patches := patches[a := patches[a].(usedIn := [])];
        a := a + 1;
      }
    }

    /** updatePatchUsage for [tex]. */
    method UpdatePatchUsage(tex: Textures.CTexture)
      modifies this
      ensures var u := UsageUpdated(old(patches), old(invalidUsedIn), tex.name, RefNames(tex.patches));
              patches == u.patches && invalidUsedIn == u.invalid
      ensures muted == old(muted)
    {
      var texName := tex.name;
      var ps := StripUsage(patches, texName);
      var u := CreditRefs(Usage(ps, invalidUsedIn), RefNames(tex.patches), texName);
      patches, invalidUsedIn := u.patches, u.invalid;
    }
  }
}
