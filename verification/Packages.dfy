// Packages of files: the writer's layout, and the reader that finds and copies the files again.
module Packages {

  type Byte = b: int | 0 <= b < 256

  const PAGE_BYTES := 4096
  const RECORD_BYTES := 64
  const NAME_LIMIT := 42
  const DEFAULTS := 2
  const MAGIC := 0x5346_5623
  const WORD64 := 0x1_0000_0000_0000_0000

  // ---- numbers as bytes -------------------------------------------------------------------------

  // n bytes, the lowest first.
  function Bytes(v: nat, n: nat): (s: seq<Byte>)
    ensures |s| == n
  {
    if n == 0 then [] else [v % 256] + Bytes(v / 256, n - 1)
  }

  function Number(s: seq<Byte>): nat {
    if s == [] then 0 else s[0] + 256 * Number(s[1..])
  }

  function Power(n: nat): nat {
    if n == 0 then 1 else 256 * Power(n - 1)
  }

  lemma {:induction false} NumberOfBytes(v: nat, n: nat)
    requires v < Power(n)
    ensures Number(Bytes(v, n)) == v
  {
    if n > 0 {
      NumberOfBytes(v / 256, n - 1);
      assert Bytes(v, n)[1..] == Bytes(v / 256, n - 1);
    }
  }

  lemma Powers()
    ensures Power(8) == WORD64 && Power(4) == 0x1_0000_0000 && Power(2) == 0x1_0000
  {
    assert Power(1) == 256;
    assert Power(2) == 0x1_0000;
    assert Power(3) == 0x100_0000;
    assert Power(4) == 0x1_0000_0000;
    assert Power(5) == 0x100_0000_0000;
    assert Power(6) == 0x1_0000_0000_0000;
    assert Power(7) == 0x100_0000_0000_0000;
  }

  // ---- records ----------------------------------------------------------------------------------

  datatype Record = Record(offset: nat, size: nat, length: nat, mode: nat, kind: nat, name: seq<Byte>)

  predicate Fits(r: Record) {
    r.offset < WORD64 && r.size < WORD64 && r.length < 0x1_0000 && r.mode < 0x1_0000 && r.kind < 256 && |r.name| == NAME_LIMIT + 1
  }

  const BLANK := Record(0, 0, 0, 0, 0, Zeros(NAME_LIMIT + 1))

  function Zeros(n: nat): (s: seq<Byte>)
    ensures |s| == n && forall i | 0 <= i < n :: s[i] == 0
  {
    if n == 0 then [] else Zeros(n - 1) + [0]
  }

  // A record as it lies in the package.
  function Encode(r: Record): (s: seq<Byte>)
    requires Fits(r)
    ensures |s| == RECORD_BYTES
  {
    Bytes(r.offset, 8) + Bytes(r.size, 8) + Bytes(r.length, 2) + Bytes(r.mode, 2) + [r.kind] + r.name
  }

  function Decode(s: seq<Byte>): Record
    requires |s| == RECORD_BYTES
  {
    Record(Number(s[0..8]), Number(s[8..16]), Number(s[16..18]), Number(s[18..20]), s[20], s[21..64])
  }

  lemma Pieces(a: seq<Byte>, b: seq<Byte>, c: seq<Byte>, d: seq<Byte>, e: Byte, f: seq<Byte>)
    requires |a| == 8 && |b| == 8 && |c| == 2 && |d| == 2 && |f| == 43
    ensures var s := a + b + c + d + [e] + f;
            |s| == 64 && s[0..8] == a && s[8..16] == b && s[16..18] == c && s[18..20] == d && s[20] == e && s[21..64] == f
  {
  }

  lemma DecodeEncode(r: Record)
    requires Fits(r)
    ensures Decode(Encode(r)) == r
  {
    hide Bytes, Number, Power;
    Powers();
    NumberOfBytes(r.offset, 8);
    NumberOfBytes(r.size, 8);
    NumberOfBytes(r.length, 2);
    NumberOfBytes(r.mode, 2);
    Pieces(Bytes(r.offset, 8), Bytes(r.size, 8), Bytes(r.length, 2), Bytes(r.mode, 2), r.kind, r.name);
  }

  // Byte by byte: 8 for the offset, 8 for the size, 2 for the name's length, 2 for the mode, 1 for the kind, the
  // lowest first, and 43 for the name.
  lemma RecordBytes(r: Record)
    requires Fits(r)
    ensures var s := Encode(r);
            && |s| == 64 && r.offset == Eight(s, 0) && r.size == Eight(s, 8)
            && r.length == s[16] as int + s[17] as int * 0x100 && r.mode == s[18] as int + s[19] as int * 0x100 && r.kind == s[20] as int && s[21..64] == r.name
  {
    DecodeEncode(r);
    var s := Encode(r);
    hide Encode;
    EightIs(s, 0);
    EightIs(s, 8);
    TwoIs(s, 16);
    TwoIs(s, 18);
  }

  function Eight(s: seq<Byte>, at: nat): nat
    requires at + 8 <= |s|
  {
    s[at] as int + s[at + 1] as int * 0x100 + s[at + 2] as int * 0x1_0000 + s[at + 3] as int * 0x100_0000 + s[at + 4] as int * 0x1_0000_0000
    + s[at + 5] as int * 0x100_0000_0000 + s[at + 6] as int * 0x1_0000_0000_0000 + s[at + 7] as int * 0x100_0000_0000_0000
  }

  lemma NumberStep(s: seq<Byte>, i: nat, j: nat)
    requires i < j <= |s|
    ensures Number(s[i..j]) == s[i] + 256 * Number(s[i + 1..j])
  {
    assert s[i..j][1..] == s[i + 1..j];
  }

  lemma EightIs(s: seq<Byte>, at: nat)
    requires at + 8 <= |s|
    ensures Number(s[at..at + 8]) == Eight(s, at)
  {
    NumberStep(s, at, at + 8);
    NumberStep(s, at + 1, at + 8);
    NumberStep(s, at + 2, at + 8);
    NumberStep(s, at + 3, at + 8);
    NumberStep(s, at + 4, at + 8);
    NumberStep(s, at + 5, at + 8);
    NumberStep(s, at + 6, at + 8);
    NumberStep(s, at + 7, at + 8);
    assert Number(s[at + 8..at + 8]) == 0;
    hide Number;
  }

  lemma TwoIs(s: seq<Byte>, at: nat)
    requires at + 2 <= |s|
    ensures Number(s[at..at + 2]) == s[at] as int + s[at + 1] as int * 0x100
  {
    NumberStep(s, at, at + 2);
    NumberStep(s, at + 1, at + 2);
    assert Number(s[at + 2..at + 2]) == 0;
  }

  // ---- files and where they go ------------------------------------------------------------------

  datatype File = File(name: seq<Byte>, content: seq<Byte>, mode: nat, kind: nat)

  function AlignUp(v: nat): nat {
    (v + PAGE_BYTES - 1) / PAGE_BYTES * PAGE_BYTES
  }

  // The files of a directory: names of 1 to 42 bytes, neither of the two links, no two alike.
  ghost predicate Listable(files: seq<File>) {
    && (forall i | 0 <= i < |files| :: 0 < |files[i].name| <= NAME_LIMIT && files[i].mode < 0x1_0000 && files[i].kind < 256)
    && (forall i | 0 <= i < |files| :: files[i].name != LinkName(0) && files[i].name != LinkName(1))
    && (forall i, j | 0 <= i < |files| && 0 <= j < |files| && files[i].name == files[j].name :: i == j)
  }

  const DOT: Byte := 0x2E

  function LinkName(i: nat): (s: seq<Byte>)
    ensures |s| == if i == 0 then 1 else 2
  {
    if i == 0 then [DOT] else [DOT, DOT]
  }

  function Records(files: seq<File>): nat {
    |files| + DEFAULTS + 1
  }

  function HeaderBytes(files: seq<File>): nat {
    RECORD_BYTES * Records(files)
  }

  // Where file i starts: every file starts on a page of its own.
  function OffsetOf(files: seq<File>, i: nat): (offset: nat)
    requires i <= |files|
    ensures offset >= AlignUp(HeaderBytes(files))
  {
    if i == 0 then AlignUp(HeaderBytes(files)) else OffsetOf(files, i - 1) + AlignUp(|files[i - 1].content|)
  }

  function NameField(name: seq<Byte>): (s: seq<Byte>)
    requires |name| <= NAME_LIMIT
    ensures |s| == NAME_LIMIT + 1
  {
    name + Zeros(NAME_LIMIT + 1 - |name|)
  }

  const MODE_EXECUTABLE := 1
  const KIND_LINK := 4

  // Record k of the header: two links to the directory itself, the files, and a blank one.
  ghost function RecordOf(files: seq<File>, k: nat): Record
    requires k < Records(files) && Listable(files)
  {
    if k < 2 then Record(0, AlignUp(HeaderBytes(files)), k + 1, 1, 4, NameField(if k == 0 then [0x2E] else [0x2E, 0x2E]))
    else if k == Records(files) - 1 then BLANK
    else
      var f := files[k - DEFAULTS];
      Record(OffsetOf(files, k - DEFAULTS), |f.content|, |f.name|, f.mode, f.kind, NameField(f.name))
  }

  // What a package of these files is: the header, each file's bytes at its offset, and the magic word last.
  ghost predicate Packed(files: seq<File>, package: seq<Byte>) {
    && Listable(files)
    && HeaderBytes(files) <= |package|
    && (forall k | 0 <= k < Records(files) :: RecordAt(package, k) == RecordOf(files, k))
    && (forall i | 0 <= i < |files| :: Holds(package, OffsetOf(files, i), files[i].content))
    && |package| >= 4 && |package| % 4 == 0 && package[|package| - 4..] == [0x23, 0x56, 0x46, 0x53]
  }

  ghost predicate Holds(package: seq<Byte>, offset: nat, content: seq<Byte>) {
    offset + |content| <= |package| && package[offset..offset + |content|] == content
  }

  function RecordAt(package: seq<Byte>, k: nat): Record
    requires RECORD_BYTES * (k + 1) <= |package|
  {
    Decode(package[RECORD_BYTES * k..RECORD_BYTES * (k + 1)])
  }

  lemma AlignIs(v: nat)
    ensures AlignUp(v) >= v && AlignUp(v) % PAGE_BYTES == 0 && AlignUp(v) - v < PAGE_BYTES
  {
  }

  lemma AlignSum(base: nat, v: nat)
    requires base % PAGE_BYTES == 0
    ensures AlignUp(base + v) == base + AlignUp(v)
  {
  }

  lemma {:induction false} OffsetAligned(files: seq<File>, i: nat)
    requires i <= |files|
    ensures OffsetOf(files, i) % PAGE_BYTES == 0
  {
    if i == 0 {
      AlignIs(HeaderBytes(files));
    } else {
      OffsetAligned(files, i - 1);
      AlignIs(|files[i - 1].content|);
      hide AlignUp;
    }
  }

  // ---- writing ----------------------------------------------------------------------------------

  // The header as bytes.
  ghost function HeaderUpTo(files: seq<File>, k: nat): (s: seq<Byte>)
    requires Writable(files) && k <= Records(files)
    ensures |s| == RECORD_BYTES * k
  {
    if k == 0 then [] else HeaderUpTo(files, k - 1) + Encode(RecordOf(files, k - 1))
  }

  // All numbers of the header fit their fields.
  ghost predicate Writable(files: seq<File>) {
    && Listable(files)
    && forall k: nat | k < Records(files) :: Fits(RecordOf(files, k))
  }

  // The files fit into 64 bits together.
  lemma FilesFit(files: seq<File>)
    requires Listable(files) && OffsetOf(files, |files|) < WORD64
    ensures Writable(files)
  {
    hide OffsetOf, AlignUp, Fits, RecordOf, Listable;
    forall k: nat | k < Records(files) ensures Fits(RecordOf(files, k)) {
      if DEFAULTS <= k < Records(files) - 1 {
        var i: nat := k - DEFAULTS;
        OffsetsGrow(files, i, |files|);
        OffsetsGrow(files, i + 1, |files|);
        FileFits(files, i);
      } else {
        OffsetsGrow(files, 0, |files|);
        LinkFits(files, k);
      }
    }
  }

  lemma LinkFits(files: seq<File>, k: nat)
    requires Listable(files) && k < Records(files) && (k < DEFAULTS || k == Records(files) - 1) && OffsetOf(files, 0) < WORD64
    ensures Fits(RecordOf(files, k))
  {
    assert OffsetOf(files, 0) == AlignUp(HeaderBytes(files));
    hide AlignUp, OffsetOf;
  }

  lemma FileFits(files: seq<File>, i: nat)
    requires Listable(files) && i < |files| && OffsetOf(files, i) < WORD64 && OffsetOf(files, i + 1) < WORD64
    ensures Fits(RecordOf(files, i + DEFAULTS))
  {
    assert OffsetOf(files, i + 1) == OffsetOf(files, i) + AlignUp(|files[i].content|);
    AlignIs(|files[i].content|);
    hide OffsetOf, AlignUp, NameField;
  }

  // Every record is in place.
  ghost predicate Filled(files: seq<File>, vfs: seq<Record>) {
    && Listable(files) && |vfs| == Records(files)
    && forall k: nat | k < Records(files) :: vfs[k] == RecordOf(files, k)
  }

  lemma {:induction false} OffsetsGrow(files: seq<File>, i: nat, j: nat)
    requires i <= j <= |files|
    ensures OffsetOf(files, i) <= OffsetOf(files, j)
  {
    if i < j {
      OffsetsGrow(files, i, j - 1);
    }
  }

  lemma {:induction false} HeaderRecord(files: seq<File>, n: nat, k: nat)
    requires Writable(files) && k < n <= Records(files)
    ensures HeaderUpTo(files, n)[RECORD_BYTES * k..RECORD_BYTES * (k + 1)] == Encode(RecordOf(files, k))
  {
    hide RecordOf, Encode, Fits, Listable, Writable, HeaderUpTo;
    OneRecordMore(files, n);
    var rest, last := HeaderUpTo(files, n - 1), Encode(RecordOf(files, n - 1));
    if k < n - 1 {
      HeaderRecord(files, n - 1, k);
    }
    if k < n - 1 {
      SliceOfSum(rest, last, RECORD_BYTES * k, RECORD_BYTES * (k + 1));
    } else {
      LastOfSum(rest, last);
    }
  }

  lemma OneRecordMore(files: seq<File>, n: nat)
    requires Writable(files) && 0 < n <= Records(files)
    ensures Listable(files) && Fits(RecordOf(files, n - 1)) && HeaderUpTo(files, n) == HeaderUpTo(files, n - 1) + Encode(RecordOf(files, n - 1))
  {
  }

  lemma LastOfSum(a: seq<Byte>, b: seq<Byte>)
    ensures (a + b)[|a|..|a| + |b|] == b
  {
  }

  lemma SliceOfSum(a: seq<Byte>, b: seq<Byte>, i: nat, j: nat)
    requires i <= j <= |a|
    ensures (a + b)[i..j] == a[i..j]
  {
  }

  // The header, filled step by step: links, names and sizes, offsets, and the size of the directory.
  method FillHeader(files: seq<File>) returns (vfs: array<Record>)
    requires Listable(files)
    ensures fresh(vfs) && Filled(files, vfs[..])
  {
    hide NameField, AlignUp;
    vfs := new Record[Records(files)](_ => BLANK);
    for i := 0 to DEFAULTS
      invariant forall k: nat | k < Records(files) ::
                  vfs[k] == if k < i then Record(0, 0, k + 1, MODE_EXECUTABLE, KIND_LINK, NameField(LinkName(k))) else BLANK
    {
      vfs[i] := Record(0, 0, i + 1, MODE_EXECUTABLE, KIND_LINK, NameField(LinkName(i)));
    }
    for i := 0 to |files|
      invariant forall k: nat | k < Records(files) :: vfs[k] == if k < DEFAULTS + i then RecordOf(files, k).(offset := 0, size := if k < DEFAULTS then 0 else RecordOf(files, k).size) else BLANK
    {
      vfs[DEFAULTS + i] := Record(0, |files[i].content|, |files[i].name|, files[i].mode, files[i].kind, NameField(files[i].name));
    }
    var offset := AlignUp(RECORD_BYTES * Records(files));
    for i := 0 to |files|
      invariant offset == OffsetOf(files, i)
      invariant forall k: nat | k < Records(files) :: vfs[k] == if k < DEFAULTS then RecordOf(files, k).(size := 0) else
                  if k < DEFAULTS + i then RecordOf(files, k) else RecordOf(files, k).(offset := 0)
    {
      vfs[DEFAULTS + i] := vfs[DEFAULTS + i].(offset := offset);
      offset := offset + AlignUp(|files[i].content|);
    }
    for i := 0 to DEFAULTS
      invariant forall k: nat | k < Records(files) :: vfs[k] == if i <= k < DEFAULTS then RecordOf(files, k).(size := 0) else RecordOf(files, k)
    {
      vfs[i] := vfs[i].(size := AlignUp(RECORD_BYTES * Records(files)));
    }
  }

  // The package so far: the header and the first n files, each where its record says.
  ghost predicate Written(files: seq<File>, package: seq<Byte>, n: nat)
    requires n <= |files|
  {
    && Writable(files) && HeaderBytes(files) <= |package| && package[..HeaderBytes(files)] == HeaderUpTo(files, Records(files))
    && forall i | 0 <= i < n :: Holds(package, OffsetOf(files, i), files[i].content)
  }

  lemma WriteMore(files: seq<File>, package: seq<Byte>, n: nat, more: seq<Byte>)
    requires n <= |files| && Written(files, package, n)
    ensures Written(files, package + more, n)
  {
    assert (package + more)[..HeaderBytes(files)] == package[..HeaderBytes(files)];
    hide HeaderUpTo, Writable;
    forall i | 0 <= i < n ensures Holds(package + more, OffsetOf(files, i), files[i].content) {
      HoldsMore(package, OffsetOf(files, i), files[i].content, more);
    }
  }

  lemma HoldsMore(package: seq<Byte>, offset: nat, content: seq<Byte>, more: seq<Byte>)
    requires Holds(package, offset, content)
    ensures Holds(package + more, offset, content)
  {
    assert (package + more)[offset..offset + |content|] == package[offset..offset + |content|];
  }

  lemma HoldsLast(package: seq<Byte>, content: seq<Byte>)
    ensures Holds(package + content, |package|, content)
  {
  }

  // Zeros up to the next page, then the file: it comes to lie exactly at its offset.
  method AppendFile(files: seq<File>, package: seq<Byte>, n: nat) returns (longer: seq<Byte>)
    requires n < |files| && Written(files, package, n)
    requires AlignUp(|package|) == OffsetOf(files, n)
    ensures Written(files, longer, n + 1) && |longer| == OffsetOf(files, n) + |files[n].content|
  {
    hide Written, Holds, OffsetOf;
    AlignIs(|package|);
    longer := package;
    for j := 0 to AlignUp(|package|) - |package|
      invariant Written(files, longer, n) && |longer| == |package| + j
    {
      WriteMore(files, longer, n, [0]);
      longer := longer + [0];
    }
    ghost var aligned := longer;
    for f := 0 to |files[n].content|
      invariant longer == aligned + files[n].content[..f] && Written(files, aligned, n)
    {
      longer := longer + [files[n].content[f]];
    }
    assert files[n].content[..|files[n].content|] == files[n].content;
    WriteMore(files, aligned, n, files[n].content);
    HoldsLast(aligned, files[n].content);
    WrittenNext(files, longer, n);
  }

  lemma WrittenNext(files: seq<File>, package: seq<Byte>, n: nat)
    requires n < |files| && Written(files, package, n) && Holds(package, OffsetOf(files, n), files[n].content)
    ensures Written(files, package, n + 1)
  {
    hide Holds, Writable;
  }

  lemma NextOffset(files: seq<File>, n: nat)
    requires n < |files|
    ensures AlignUp(OffsetOf(files, n) + |files[n].content|) == OffsetOf(files, n + 1)
  {
    OffsetAligned(files, n);
    AlignSum(OffsetOf(files, n), |files[n].content|);
  }

  // The magic word reads "#VFS" byte by byte.
  lemma MagicIs(s: seq<Byte>)
    requires |s| == 4
    ensures Number(s) == MAGIC <==> s == [0x23, 0x56, 0x46, 0x53]
  {
    NumberStep(s, 0, 4);
    NumberStep(s, 1, 4);
    NumberStep(s, 2, 4);
    NumberStep(s, 3, 4);
    assert s[0..4] == s && Number(s[4..4]) == 0;
    hide Number;
    assert s == [s[0], s[1], s[2], s[3]];
  }

  lemma MagicLast(package: seq<Byte>)
    ensures var p := package + Bytes(MAGIC, 4); |p| >= 4 && p[|p| - 4..] == [0x23, 0x56, 0x46, 0x53]
  {
    Powers();
    NumberOfBytes(MAGIC, 4);
    var p := package + Bytes(MAGIC, 4);
    assert p[|p| - 4..] == Bytes(MAGIC, 4);
    MagicIs(Bytes(MAGIC, 4));
  }

  lemma WrittenIsPacked(files: seq<File>, package: seq<Byte>)
    requires Written(files, package, |files|) && |package| >= 4 && |package| % 4 == 0 && package[|package| - 4..] == [0x23, 0x56, 0x46, 0x53]
    ensures Packed(files, package)
  {
    hide RecordOf, RecordAt, HeaderUpTo, Number, Holds, OffsetOf, Fits, Listable;
    forall k: nat | k < Records(files) ensures RecordAt(package, k) == RecordOf(files, k) {
      WrittenRecord(files, package, k);
    }
  }

  lemma WrittenRecord(files: seq<File>, package: seq<Byte>, k: nat)
    requires Written(files, package, |files|) && k < Records(files)
    ensures RECORD_BYTES * (k + 1) <= |package| && RecordAt(package, k) == RecordOf(files, k)
  {
    hide RecordOf, Decode, Encode, HeaderUpTo, Number, Holds, OffsetOf, Fits, Listable;
    HeaderRecord(files, Records(files), k);
    DecodeEncode(RecordOf(files, k));
    SliceOfTake(package, HeaderBytes(files), RECORD_BYTES * k, RECORD_BYTES * (k + 1));
  }

  lemma SliceOfTake(s: seq<Byte>, n: nat, i: nat, j: nat)
    requires i <= j <= n <= |s|
    ensures s[..n][i..j] == s[i..j]
  {
  }

  // vfs.c: a directory becomes a package.
  method Pack(files: seq<File>) returns (package: seq<Byte>)
    requires Listable(files) && OffsetOf(files, |files|) < WORD64
    ensures Packed(files, package)
  {
    hide Listable, Writable, RecordOf, Encode, OffsetOf, Written, AlignUp, Fits, Bytes, Number, Filled, HeaderUpTo, Packed, HeaderBytes;
    FilesFit(files);
    var vfs := FillHeader(files);
    FilledSize(files, vfs[..]);
    NoHeader(files);
    package := [];
    for k := 0 to vfs.Length
      invariant Filled(files, vfs[..]) && Writable(files)
      invariant k <= Records(files) && package == HeaderUpTo(files, k)
    {
      FilledAt(files, vfs[..], k);
      package := package + Encode(vfs[k]);
    }
    HeaderWritten(files, package);
    FirstOffset(files);
    for i := 0 to |files|
      invariant Written(files, package, i) && AlignUp(|package|) == OffsetOf(files, i)
    {
      package := AppendFile(files, package, i);
      NextOffset(files, i);
    }
    package := Seal(files, package);
  }

  // The magic word, on the next word but one.
  method Seal(files: seq<File>, body: seq<Byte>) returns (package: seq<Byte>)
    requires Written(files, body, |files|)
    ensures Packed(files, package)
  {
    hide Written, Bytes, Number, Packed;
    package := body;
    for a := 0 to 4 - |body| % 4
      invariant Written(files, package, |files|) && |package| == |body| + a
    {
      WriteMore(files, package, |files|, [0]);
      package := package + [0];
    }
    WriteMore(files, package, |files|, Bytes(MAGIC, 4));
    MagicLast(package);
    package := package + Bytes(MAGIC, 4);
    WrittenIsPacked(files, package);
  }

  lemma FilledAt(files: seq<File>, vfs: seq<Record>, k: nat)
    requires Writable(files) && Filled(files, vfs) && k < |vfs|
    ensures Fits(vfs[k]) && k < Records(files) && HeaderUpTo(files, k + 1) == HeaderUpTo(files, k) + Encode(vfs[k])
  {
  }

  lemma FilledSize(files: seq<File>, vfs: seq<Record>)
    requires Filled(files, vfs)
    ensures |vfs| == Records(files)
  {
  }

  lemma HeaderWritten(files: seq<File>, package: seq<Byte>)
    requires Writable(files) && package == HeaderUpTo(files, Records(files))
    ensures Written(files, package, 0)
  {
    assert package[..HeaderBytes(files)] == package;
  }

  lemma NoHeader(files: seq<File>)
    requires Writable(files)
    ensures HeaderUpTo(files, 0) == []
  {
  }

  lemma FirstOffset(files: seq<File>)
    ensures AlignUp(HeaderBytes(files)) == OffsetOf(files, 0)
  {
  }

  // ---- reading ----------------------------------------------------------------------------------

  // lib_vfs_check: the last whole word of the package.
  method Check(package: array<Byte>) returns (ok: bool)
    requires package.Length >= 4
    ensures ok <==> package[package.Length / 4 * 4 - 4..package.Length / 4 * 4] == [0x23, 0x56, 0x46, 0x53]
  {
    MagicIs(package[package.Length / 4 * 4 - 4..package.Length / 4 * 4]);
    var w := package.Length / 4 - 1;
    ok := Number(package[4 * w..4 * (w + 1)]) == MAGIC;
  }

  // A package in memory whose records point at addresses: record k of a link or a file has its offset
  // from the address the package was put at.
  ghost predicate Installed(files: seq<File>, mem: seq<Byte>, base: nat, n: nat) {
    && Listable(files) && n < Records(files) && HeaderBytes(files) <= |mem|
    && (forall k: nat | k < Records(files) :: RecordAt(mem, k) == Based(RecordOf(files, k), if k < n then base else 0))
    && AllHeld(files, mem)
  }

  ghost predicate AllHeld(files: seq<File>, mem: seq<Byte>) {
    forall i | 0 <= i < |files| :: Holds(mem, OffsetOf(files, i), files[i].content)
  }

  function Based(r: Record, base: nat): Record {
    r.(offset := r.offset + base)
  }

  lemma PackedIsInstalled(files: seq<File>, package: seq<Byte>, base: nat)
    requires Packed(files, package)
    ensures Installed(files, package, base, 0)
  {
    hide Decode, Holds, Number, RecordOf;
    forall k: nat | k < Records(files) ensures RecordAt(package, k) == Based(RecordOf(files, k), 0) {
      assert RecordAt(package, k) == RecordOf(files, k);
    }
  }

  // One word of memory is written.
  ghost function Patched(mem: seq<Byte>, at: nat, s: seq<Byte>): (r: seq<Byte>)
    requires at + |s| <= |mem|
    ensures |r| == |mem|
  {
    mem[..at] + s + mem[at + |s|..]
  }

  method Store(mem: array<Byte>, at: nat, s: seq<Byte>)
    requires at + |s| <= mem.Length
    modifies mem
    ensures mem[..] == Patched(old(mem[..]), at, s)
  {
    for i := 0 to |s|
      invariant forall j | 0 <= j < mem.Length :: mem[j] == if at <= j < at + i then s[j - at] else old(mem[j])
    {
      mem[at + i] := s[i];
    }
    assert mem[..] == Patched(old(mem[..]), at, s);
  }

  lemma PatchOutside(mem: seq<Byte>, at: nat, s: seq<Byte>, i: nat, j: nat)
    requires at + |s| <= |mem| && i <= j <= |mem| && (j <= at || at + |s| <= i)
    ensures Patched(mem, at, s)[i..j] == mem[i..j]
  {
  }

  lemma PatchRecord(mem: seq<Byte>, at: nat, s: seq<Byte>)
    requires at + RECORD_BYTES <= |mem| && |s| == 8
    ensures Patched(mem, at, s)[at..at + RECORD_BYTES] == s + mem[at..at + RECORD_BYTES][8..]
  {
  }

  lemma OtherOffset(s: seq<Byte>, was: seq<Byte>)
    requires |s| == 8 && |was| == RECORD_BYTES
    ensures Decode(s + was[8..]) == Decode(was).(offset := Number(s))
  {
    hide Number;
    var now := s + was[8..];
    assert now[0..8] == s;
    BehindOffset(s, was, 8, 16);
    BehindOffset(s, was, 16, 18);
    BehindOffset(s, was, 18, 20);
    BehindOffset(s, was, 21, 64);
  }

  lemma BehindOffset(s: seq<Byte>, was: seq<Byte>, i: nat, j: nat)
    requires |s| == 8 && |was| == RECORD_BYTES && 8 <= i <= j <= RECORD_BYTES
    ensures (s + was[8..])[i..j] == was[i..j]
  {
  }

  // Writing a record's offset changes that offset and nothing else.
  lemma PatchOffset(mem: seq<Byte>, k: nat, v: nat, j: nat)
    requires RECORD_BYTES * (k + 1) <= |mem| && RECORD_BYTES * (j + 1) <= |mem| && v < WORD64
    ensures RecordAt(Patched(mem, RECORD_BYTES * k, Bytes(v, 8)), j) == if j == k then RecordAt(mem, k).(offset := v) else RecordAt(mem, j)
  {
    hide Bytes, Number, Power, Decode, Patched;
    Powers();
    NumberOfBytes(v, 8);
    var at, s := RECORD_BYTES * k, Bytes(v, 8);
    if j == k {
      PatchRecord(mem, at, s);
      OtherOffset(s, mem[at..at + RECORD_BYTES]);
    } else {
      PatchOutside(mem, at, s, RECORD_BYTES * j, RECORD_BYTES * (j + 1));
    }
  }

  lemma PatchHolds(mem: seq<Byte>, at: nat, s: seq<Byte>, offset: nat, content: seq<Byte>)
    requires at + |s| <= |mem| && at + |s| <= offset && Holds(mem, offset, content)
    ensures Holds(Patched(mem, at, s), offset, content)
  {
    assert Patched(mem, at, s)[offset..offset + |content|] == mem[offset..offset + |content|];
  }

  lemma {:induction false} OffsetsAfterHeader(files: seq<File>, i: nat)
    requires i <= |files|
    ensures OffsetOf(files, i) >= HeaderBytes(files)
  {
    AlignIs(HeaderBytes(files));
    hide AlignUp;
  }

  lemma HeaderHolds(files: seq<File>, mem: seq<Byte>, n: nat)
    requires HeaderBytes(files) <= |mem| && n < Records(files)
    ensures RECORD_BYTES * (n + 1) <= |mem| && RECORD_BYTES * n + 8 <= |mem|
  {
  }

  lemma InstallSteps(files: seq<File>, mem: seq<Byte>, base: nat, n: nat)
    requires Installed(files, mem, base, n) && n < Records(files) - 1 && RecordOf(files, n).offset + base < WORD64
    requires RECORD_BYTES * n + 8 <= |mem|
    ensures Installed(files, Patched(mem, RECORD_BYTES * n, Bytes(RecordOf(files, n).offset + base, 8)), base, n + 1)
  {
    hide RecordAt, Bytes, RecordOf, Patched, Listable, AllHeld, Based;
    var s := Bytes(RecordOf(files, n).offset + base, 8);
    HeldStill(files, mem, n, s);
    var after := Patched(mem, RECORD_BYTES * n, s);
    forall k: nat | k < Records(files) ensures RecordAt(after, k) == Based(RecordOf(files, k), if k < n + 1 then base else 0) {
      InstallRecord(files, mem, base, n, k);
    }
  }

  lemma InstallOne(files: seq<File>, mem: seq<Byte>, base: nat, n: nat)
    requires Installed(files, mem, base, n) && n < Records(files) - 1 && RecordOf(files, n).offset + base < WORD64
    ensures RECORD_BYTES * (n + 1) <= |mem|
    ensures Installed(files, Patched(mem, RECORD_BYTES * n, Bytes(RecordOf(files, n).offset + base, 8)), base, n + 1)
  {
    hide RecordAt, Bytes, RecordOf, Patched, Listable, AllHeld, Based;
    HeaderHolds(files, mem, n);
    InstallSteps(files, mem, base, n);
  }

  lemma InstallRecord(files: seq<File>, mem: seq<Byte>, base: nat, n: nat, k: nat)
    requires Installed(files, mem, base, n) && n < Records(files) - 1 && RecordOf(files, n).offset + base < WORD64 && k < Records(files)
    ensures RECORD_BYTES * (n + 1) <= |mem|
    ensures RecordAt(Patched(mem, RECORD_BYTES * n, Bytes(RecordOf(files, n).offset + base, 8)), k)
            == Based(RecordOf(files, k), if k < n + 1 then base else 0)
  {
    hide RecordAt, Bytes, RecordOf, Patched, Listable, AllHeld, Based;
    assert RecordAt(mem, k) == Based(RecordOf(files, k), if k < n then base else 0);
    PatchOffset(mem, n, RecordOf(files, n).offset + base, k);
    BasedOnce(RecordOf(files, n), base);
  }

  lemma BasedOnce(r: Record, base: nat)
    ensures Based(r, 0).(offset := r.offset + base) == Based(r, base)
  {
  }

  // The files lie behind the header.
  lemma HeldStill(files: seq<File>, mem: seq<Byte>, n: nat, s: seq<Byte>)
    requires AllHeld(files, mem) && n < Records(files) && HeaderBytes(files) <= |mem| && |s| == 8
    ensures AllHeld(files, Patched(mem, RECORD_BYTES * n, s))
  {
    hide Holds, Patched, OffsetOf;
    forall i | 0 <= i < |files| ensures Holds(Patched(mem, RECORD_BYTES * n, s), OffsetOf(files, i), files[i].content) {
      OffsetsAfterHeader(files, i);
      PatchHolds(mem, RECORD_BYTES * n, s, OffsetOf(files, i), files[i].content);
    }
  }

  lemma RecordIs(files: seq<File>, mem: seq<Byte>, base: nat, n: nat, k: nat)
    requires Installed(files, mem, base, n) && k < Records(files)
    ensures RECORD_BYTES * (k + 1) <= |mem|
    ensures RecordAt(mem, k) == Based(RecordOf(files, k), if k < n then base else 0)
    ensures RecordOf(files, k).length == 0 <==> k == Records(files) - 1
  {
    hide Decode, Holds, OffsetOf, NameField;
  }

  lemma OffsetBound(files: seq<File>, k: nat, base: nat)
    requires Listable(files) && k < Records(files) && OffsetOf(files, |files|) + base < WORD64
    ensures RecordOf(files, k).offset + base < WORD64
  {
    hide OffsetOf, AlignUp, Listable, NameField;
    if DEFAULTS <= k < Records(files) - 1 {
      OffsetsGrow(files, k - DEFAULTS, |files|);
    }
  }

  // lib_vfs_init: every record up to the blank one has its offset from now on from the package's address.
  method Init(mem: array<Byte>, base: nat, ghost files: seq<File>)
    requires Installed(files, mem[..], base, 0) && OffsetOf(files, |files|) + base < WORD64
    modifies mem
    ensures Installed(files, mem[..], base, Records(files) - 1)
  {
    hide Installed, Decode, OffsetOf, RecordOf, Bytes, Patched, Number;
    var k := 0;
    Listed(files, mem[..], base, 0);
    RecordIs(files, mem[..], base, 0, k);
    while RecordAt(mem[..], k).length != 0
      invariant k < Records(files) && RECORD_BYTES * (k + 1) <= mem.Length
      invariant Installed(files, mem[..], base, k) && RecordAt(mem[..], k) == RecordOf(files, k)
      invariant RecordOf(files, k).length == 0 <==> k == Records(files) - 1
      decreases Records(files) - k
    {
      OffsetBound(files, k, base);
      InstallOne(files, mem[..], base, k);
      Store(mem, RECORD_BYTES * k, Bytes(RecordAt(mem[..], k).offset + base, 8));
      k := k + 1;
      RecordIs(files, mem[..], base, k, k);
    }
  }

  lemma Listed(files: seq<File>, mem: seq<Byte>, base: nat, n: nat)
    requires Installed(files, mem, base, n)
    ensures Listable(files)
  {
  }

  // The name in a record, read up to its length.
  predicate Named(r: Record, name: seq<Byte>) {
    r.length == |name| && |name| <= |r.name| && r.name[..|name|] == name
  }

  // The last record has the empty name.
  ghost function NameOf(files: seq<File>, k: nat): seq<Byte>
    requires k < Records(files)
  {
    if k < DEFAULTS then LinkName(k) else if k < Records(files) - 1 then files[k - DEFAULTS].name else []
  }

  lemma NameIs(files: seq<File>, k: nat, name: seq<Byte>)
    requires Listable(files) && k < Records(files)
    ensures Named(RecordOf(files, k), name) <==> name == NameOf(files, k)
    ensures RecordOf(files, k).length <= NAME_LIMIT && |RecordOf(files, k).name| == NAME_LIMIT + 1
  {
    hide OffsetOf, AlignUp;
    if k < Records(files) - 1 {
      var field := NameField(NameOf(files, k));
      assert RecordOf(files, k).name == field && RecordOf(files, k).length == |NameOf(files, k)|;
      assert field[..|NameOf(files, k)|] == NameOf(files, k);
    }
  }

  // lib_vfs_file: the record of a name, if there is one.
  method Find(mem: array<Byte>, name: seq<Byte>, ghost files: seq<File>, ghost base: nat) returns (found: bool, k: nat)
    requires Installed(files, mem[..], base, Records(files) - 1)
    ensures found ==> k < Records(files) && name == NameOf(files, k)
    ensures !found ==> forall j: nat | j < Records(files) :: name != NameOf(files, j)
  {
    hide Installed, Decode, OffsetOf, RecordOf, NameOf;
    Listed(files, mem[..], base, Records(files) - 1);
    k := 0;
    var going := true;
    while going
      invariant if going then k < Records(files) else k == Records(files)
      invariant forall j: nat | j < k && j < Records(files) :: name != NameOf(files, j)
      decreases Records(files) - k
    {
      RecordIs(files, mem[..], base, Records(files) - 1, k);
      NameIs(files, k, name);
      var r := RecordAt(mem[..], k);
      if r.length == |name| && r.name[..|name|] == name {
        return true, k;
      }
      going := r.length != 0;
      k := k + 1;
    }
    return false, k;
  }

  // lib_vfs_read
  method Read(mem: array<Byte>, k: nat, base: nat, ghost files: seq<File>) returns (content: seq<Byte>)
    requires Installed(files, mem[..], base, Records(files) - 1) && DEFAULTS <= k < Records(files) - 1
    ensures content == files[k - DEFAULTS].content
  {
    hide Decode, OffsetOf;
    RecordIs(files, mem[..], base, Records(files) - 1, k);
    var r := RecordAt(mem[..], k);
    var source := r.offset - base;
    content := [];
    assert Holds(mem[..], OffsetOf(files, k - DEFAULTS), files[k - DEFAULTS].content);
    for i := 0 to r.size
      invariant content == mem[source..source + i]
    {
      content := content + [mem[source + i]];
    }
  }

  // Whatever directory is packed: the package passes the check, and after it is put at any address every
  // file is found by its name and comes back byte for byte.
  method RoundTrip(files: seq<File>, i: nat, base: nat)
    returns (ok: bool, found: bool, content: seq<Byte>, package: seq<Byte>, ghost memory: seq<Byte>)
    requires Listable(files) && i < |files| && OffsetOf(files, |files|) + base < WORD64
    ensures Packed(files, package) && Installed(files, memory, base, Records(files) - 1) && |memory| == |package|
    ensures ok && found && content == files[i].content
  {
    hide Packed, Installed, OffsetOf, RecordOf, Decode, Number, NameOf;
    package := Pack(files);
    PackedSize(files, package);
    var mem := new Byte[|package|](j requires 0 <= j < |package| => package[j]);
    assert mem[..] == package;
    ok := Check(mem);
    PackedIsInstalled(files, package, base);
    Init(mem, base, files);
    memory := mem[..];
    var k: nat;
    found, k := Find(mem, files[i].name, files, base);
    HasName(files, i);
    SameName(files, i, k);
    content := Read(mem, k, base, files);
  }

  lemma PackedSize(files: seq<File>, package: seq<Byte>)
    requires Packed(files, package)
    ensures |package| >= 4 && |package| % 4 == 0 && package[|package| / 4 * 4 - 4..|package| / 4 * 4] == [0x23, 0x56, 0x46, 0x53]
  {
    assert package[|package| - 4..] == package[|package| / 4 * 4 - 4..|package| / 4 * 4];
  }

  lemma HasName(files: seq<File>, i: nat)
    requires i < |files|
    ensures files[i].name == NameOf(files, i + DEFAULTS)
  {
  }

  lemma SameName(files: seq<File>, i: nat, k: nat)
    requires Listable(files) && i < |files| && k < Records(files)
    requires files[i].name == NameOf(files, k)
    ensures k == i + DEFAULTS
  {
  }
}
