/** The instruction locator: finds the launch program's create instruction
    among the compiled instructions of a transaction. */
module Locator {
  import opened Wrappers
  import opened Search
  import opened Ledger
  import opened Constants

  /** The four selector bytes that `CREATE_SELECTOR_HEX` spells. */
  const CREATE_SELECTOR: seq<Byte> := [0x18, 0x1e, 0xc8, 0x28]

  /** A lower-case hexadecimal digit, as Node's `Buffer` renders it. */
  function HexDigit(n: int): char
    requires 0 <= n < 16
  {
    if n < 10 then (48 + n) as char else (87 + n) as char
  }

  /** `Buffer.toString("hex")`: two lower-case digits per byte, high nibble first. */
  function Hex(bytes: seq<Byte>): (s: string)
    ensures |s| == 2 * |bytes|
  {
    if |bytes| == 0 then ""
    else [HexDigit(bytes[0] / 16), HexDigit(bytes[0] % 16)] + Hex(bytes[1..])
  }

  lemma {:induction false} HexInjective(a: seq<Byte>, b: seq<Byte>)
    requires Hex(a) == Hex(b)
    ensures a == b
  {
    if |a| != 0 {
      var ha, hb := Hex(a), Hex(b);
      assert HexDigit(a[0] / 16) == ha[0] == hb[0] == HexDigit(b[0] / 16);
      assert HexDigit(a[0] % 16) == ha[1] == hb[1] == HexDigit(b[0] % 16);
      assert a[0] == b[0];
      assert Hex(a[1..]) == ha[2..] == hb[2..] == Hex(b[1..]);
      HexInjective(a[1..], b[1..]);
    }
  }

  /** Comparing the hex rendering of four data bytes with "181ec828" is the
      same as comparing the bytes with the selector. */
  lemma SelectorHexMatches(bytes: seq<Byte>)
    ensures Hex(bytes) == CREATE_SELECTOR_HEX <==> bytes == CREATE_SELECTOR
  {
    assert Hex(CREATE_SELECTOR) == CREATE_SELECTOR_HEX;
    if Hex(bytes) == CREATE_SELECTOR_HEX {
      HexInjective(bytes, CREATE_SELECTOR);
    }
  }

  /** The locator's predicate: a program other than position 0, at least eight
      data bytes, and the create selector in the first four. */
  predicate IsCreateInstruction(instruction: CompiledInstruction)
  {
    && instruction.programIdIndex > 0
    && |instruction.data| >= 8
    && Hex(instruction.data[..4]) == CREATE_SELECTOR_HEX
  }

  /** The predicate in terms of bytes rather than their hex rendering. */
  lemma CreateInstructionBytes(instruction: CompiledInstruction)
    ensures IsCreateInstruction(instruction) <==>
      && instruction.programIdIndex > 0
      && |instruction.data| >= 8
      && instruction.data[..4] == CREATE_SELECTOR
  {
    if |instruction.data| >= 8 {
      SelectorHexMatches(instruction.data[..4]);
    }
  }

  /** The position of the first create instruction, if any. */
  function LocateCreateInstruction(instructions: seq<CompiledInstruction>): (r: Option<nat>)
    ensures r.Some? ==> IsFirst(instructions, IsCreateInstruction, r.value)
    ensures r.None? <==> forall j :: 0 <= j < |instructions| ==> !IsCreateInstruction(instructions[j])
  {
    FindIndex(instructions, IsCreateInstruction)
  }
}
