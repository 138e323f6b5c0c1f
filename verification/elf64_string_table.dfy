/** The ELF64 section-name string table (System V ABI, generic part, "String
    Table"). Strings are appended to one table shared by every string table
    section; the section writes a NUL byte followed by the table. */
module Elf64StringTable {

  newtype byte = x: int | 0 <= x < 256

  const UInt32Modulus: nat := 0x1_0000_0000

  /** A character narrowed to a byte keeps its low eight bits. */
  function LowByte(c: char): byte {
    (c as int % 256) as byte
  }

  /** The bytes of a text, one per character. */
  function EncodeText(text: string): (r: seq<byte>)
    ensures |r| == |text|
    ensures forall i :: 0 <= i < |text| ==> r[i] == LowByte(text[i])
  {
    if text == [] then [] else [LowByte(text[0])] + EncodeText(text[1..])
  }

  /** Encoding one more character appends its byte. */
  lemma EncodeTextExtend(text: string, k: nat)
    requires k < |text|
    ensures EncodeText(text[..k + 1]) == EncodeText(text[..k]) + [LowByte(text[k])]
  {
    var longer := EncodeText(text[..k + 1]);
    var shorter := EncodeText(text[..k]) + [LowByte(text[k])];
    assert |longer| == |shorter|;
    forall i | 0 <= i < |longer|
      ensures longer[i] == shorter[i]
    {
    }
  }

  /** The table after adding a string, and the offset returned for it. */
  datatype Added = Added(table: seq<byte>, offset: nat)

  /** Adding a text appends its bytes and a NUL terminator, unless the text is
      empty; either way the offset returned is one past the old table size,
      which accounts for the NUL the section writes first. */
  function AddStringResult(table: seq<byte>, text: string): (r: Added)
    ensures r.offset == |table| + 1
    ensures |text| == 0 ==> r.table == table
    ensures |text| > 0 ==> |r.table| == |table| + |text| + 1
    ensures r.table[..|table|] == table
    ensures |text| > 0 ==> r.table[|r.table| - 1] == 0
    ensures forall i :: 0 <= i < |text| ==> r.table[|table| + i] == LowByte(text[i])
  {
    if |text| == 0 then Added(table, |table| + 1)
    else Added(table + EncodeText(text) + [0], |table| + 1)
  }

  /** The bytes a string table section writes: a NUL, then the table. */
  function Emitted(table: seq<byte>): seq<byte> {
    [0] + table
  }

  /** The offset returned for a non-empty text addresses that text, followed
      by its NUL terminator, in the section as written. */
  lemma AddedTextIsAddressable(table: seq<byte>, text: string)
    requires |text| > 0
    ensures var a := AddStringResult(table, text);
      && a.offset + |text| < |Emitted(a.table)|
      && Emitted(a.table)[a.offset..a.offset + |text|] == EncodeText(text)
      && Emitted(a.table)[a.offset + |text|] == 0
  {
    var a := AddStringResult(table, text);
    var out := Emitted(a.table);
    forall i | 0 <= i < |text|
      ensures out[a.offset..a.offset + |text|][i] == EncodeText(text)[i]
    {
      assert out[a.offset + i] == a.table[|table| + i];
    }
  }

  /** Adding more strings leaves every byte of the section written before
      where it was. */
  lemma AddingPreservesEarlierBytes(table: seq<byte>, text: string)
    ensures Emitted(AddStringResult(table, text).table)[..|Emitted(table)|] == Emitted(table)
  {
    var t := AddStringResult(table, text).table;
    assert Emitted(t)[..|Emitted(table)|] == [0] + t[..|table|];
  }

  /** Strings are not shared: adding the same non-empty text twice yields two
      different offsets, each addressing its own copy. */
  lemma RepeatedTextGetsNewOffset(table: seq<byte>, text: string)
    requires |text| > 0
    ensures var first := AddStringResult(table, text);
      var second := AddStringResult(first.table, text);
      second.offset == first.offset + |text| + 1 && second.offset != first.offset
  {
  }

  /** The table shared by all string table sections. */
  class SharedStringTable {
    var bytes: seq<byte>

    constructor ()
      ensures bytes == []
    {
      bytes := [];
    }

    /** Appends a text and returns the offset it will have in the section. */
    method AddString(text: string) returns (offset: nat)
      modifies this
      ensures Added(bytes, offset) == AddStringResult(old(bytes), text)
    {
      if |text| == 0 {
        return |bytes| + 1;
      }
      var index := |bytes|;
      ghost var start := bytes;
      for k := 0 to |text|
        invariant bytes == start + EncodeText(text[..k])
      {
        EncodeTextExtend(text, k);
        bytes := bytes + [LowByte(text[k])];
      }
      assert text[..|text|] == text;
      bytes := bytes + [0];
      return index + 1;
    }
  }

  datatype SectionKind = Text | Data | ROData | BSS

  /** ELF section types (System V ABI, generic part, "Section Header"). */
  datatype Elf64SectionType = NullSection | ProgBits | SymbolTable | StringTable | OtherSectionType(value: bv32)

  datatype SectionHeader = SectionHeader(
    name: string,
    kind: SectionKind,
    sectionType: Elf64SectionType,
    flags: bv64,
    offset: nat,
    size: nat)

  /** The size recorded in the header for a given table. */
  function HeaderSize(table: seq<byte>): nat {
    |table| % UInt32Modulus
  }

  /** A `.shstrtab` section over the shared table. */
  class Elf64StringTableSection {
    const strings: SharedStringTable
    var header: SectionHeader

    constructor (strings: SharedStringTable)
      ensures this.strings == strings
      ensures header.name == ".shstrtab" && header.kind == Text
      ensures header.sectionType == StringTable && header.flags == 0
    {
      this.strings := strings;
      header := SectionHeader(".shstrtab", Text, StringTable, 0, 0, 0);
    }

    /** The length of the section in bytes, as the section reports it: the
        shared table's byte count, one less than the bytes `Write` emits. */
    function Length(): (n: nat)
      reads this, strings
      ensures n + 1 == |Emitted(strings.bytes)|
    {
      |strings.bytes|
    }

    /** Writes the section at stream position `position`: records the
        position as the 32-bit section offset and returns the bytes written. */
    method Write(position: nat) returns (output: seq<byte>)
      modifies this
      ensures output == Emitted(strings.bytes)
      ensures header == old(header).(offset := position % UInt32Modulus)
    {
      header := header.(offset := position % UInt32Modulus);
      output := [0] + strings.bytes;
    }

    /** Records the section length as the 32-bit header size. */
    method WriteHeader()
      modifies this
      ensures header == old(header).(size := HeaderSize(strings.bytes))
      ensures header.size == Length() % UInt32Modulus
    {
      header := header.(size := Length() % UInt32Modulus);
    }
  }

  // Discrepancies between the code as written and the string-table rules
  // of the System V ABI.

  /** As written, the offset returned for the empty text lies one past the
      last byte the section writes, and once another text is added it
      addresses that text's first byte rather than a NUL. */
  lemma EmptyTextOffsetIsNotAnEmptyString()
    ensures var a := AddStringResult([], "");
      a.offset == |Emitted(a.table)|
    ensures var a := AddStringResult([], "");
      var b := AddStringResult(a.table, "ab");
      b.offset == a.offset && Emitted(b.table)[a.offset] == 0x61
  {
    var a := AddStringResult([], "");
    assert a == Added([], 1);
    var b := AddStringResult(a.table, "ab");
    assert b.table[0] == LowByte("ab"[0]) == 0x61;
    assert Emitted(b.table)[1] == b.table[0];
  }

  /** As written, the header size excludes the NUL written first, so the last
      terminator of the table falls outside the section. */
  lemma HeaderSizeCutsLastTerminator()
    ensures var t := AddStringResult([], "a").table;
      && HeaderSize(t) == 2 && |Emitted(t)| == 3
      && Emitted(t)[HeaderSize(t) - 1] == 0x61
  {
    var t := AddStringResult([], "a").table;
    assert t == [LowByte('a'), 0];
  }

  /** The offset the empty text should have: index 0, the NUL the section
      writes first. Other texts are added as before. */
  function CorrectedAddString(table: seq<byte>, text: string): (r: Added)
    ensures r.table == AddStringResult(table, text).table
    ensures |text| > 0 ==> r.offset == |table| + 1
    ensures |text| == 0 ==> r.offset == 0
  {
    if |text| == 0 then Added(table, 0) else AddStringResult(table, text)
  }

  /** With the corrected offset every text, the empty one included, is found
      at its offset followed by a NUL. */
  lemma CorrectedOffsetsAreAddressable(table: seq<byte>, text: string)
    ensures var a := CorrectedAddString(table, text);
      && a.offset + |text| < |Emitted(a.table)|
      && Emitted(a.table)[a.offset..a.offset + |text|] == EncodeText(text)
      && Emitted(a.table)[a.offset + |text|] == 0
  {
    if |text| > 0 {
      AddedTextIsAddressable(table, text);
    }
  }

  /** A string table is empty or ends with a NUL terminator. */
  predicate IsStringTable(table: seq<byte>) {
    table == [] || table[|table| - 1] == 0
  }

  /** Adding a text keeps the table a string table. */
  lemma AddStringKeepsStringTable(table: seq<byte>, text: string)
    requires IsStringTable(table)
    ensures IsStringTable(AddStringResult(table, text).table)
  {
  }

  /** The header size that covers every byte written. */
  function CorrectedHeaderSize(table: seq<byte>): (size: nat)
    ensures |table| + 1 < UInt32Modulus ==> size == |Emitted(table)|
  {
    (|table| + 1) % UInt32Modulus
  }

  /** With the corrected size the section covers everything written and its
      last byte is a NUL, as the System V ABI requires of a string table. */
  lemma CorrectedHeaderSizeEndsWithNul(table: seq<byte>)
    requires IsStringTable(table) && |table| + 1 < UInt32Modulus
    ensures var size := CorrectedHeaderSize(table);
      size == |Emitted(table)| && Emitted(table)[size - 1] == 0
  {
  }
}
