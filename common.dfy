/**
 * The value layer shared by the host and the game logic: fixed-width
 * integers, registers, operands and instructions with their textual
 * rendering, the seeded playfield, the character-cell geometry types, the
 * immediate-mode UI context and the instruction card.
 */
module Common {
  import opened Wrappers

  // ---------------------------------------------------------------------
  // Fixed-width integers

  const I32_MIN: int := -0x8000_0000
  const I32_MAX: int := 0x7FFF_FFFF

  /** Rust's `i32`: arithmetic that leaves this range panics in the source. */
  newtype int32 = x: int | -0x8000_0000 <= x < 0x8000_0000

  /** Rust's `u8`. */
  newtype uint8 = x: int | 0 <= x < 0x100

  predicate FitsInt32(v: int) {
    I32_MIN <= v <= I32_MAX
  }

  /** Rust's `i32::saturating_add`: the exact sum, pinned to the i32 range. */
  function SaturatingAdd(a: int32, b: int32): (r: int32)
    ensures FitsInt32(a as int + b as int) ==> r as int == a as int + b as int
    ensures a as int + b as int > I32_MAX ==> r as int == I32_MAX
    ensures a as int + b as int < I32_MIN ==> r as int == I32_MIN
  {
    var sum := a as int + b as int;
    if sum > I32_MAX then I32_MAX as int32
    else if sum < I32_MIN then I32_MIN as int32
    else sum as int32
  }

  // ---------------------------------------------------------------------
  // Registers, operands and instructions

  const PLAYFIELD_SIZE: nat := 32
  const REGISTER_AMOUNT: nat := 8

  /** The eight symbolic registers, in declaration order. */
  datatype Register = A | B | C | D | E | F | G | H

  /** The declaration-order discriminant of a register (`r as usize`). */
  function RegisterIndex(r: Register): (n: nat)
    ensures n < REGISTER_AMOUNT
  {
    match r
    case A => 0
    case B => 1
    case C => 2
    case D => 3
    case E => 4
    case F => 5
    case G => 6
    case H => 7
  }

  /** Decodes an integer into the register with that discriminant. */
  function ToRegister(n: int32): (r: Option<Register>)
    ensures r.Some? <==> 0 <= n < REGISTER_AMOUNT as int32
    ensures r.Some? ==> RegisterIndex(r.value) == n as int
  {
    match n
    case 0 => Some(A)
    case 1 => Some(B)
    case 2 => Some(C)
    case 3 => Some(D)
    case 4 => Some(E)
    case 5 => Some(F)
    case 6 => Some(G)
    case 7 => Some(H)
    case _ => None
  }

  lemma ToRegisterRoundTrip(r: Register)
    ensures ToRegister(RegisterIndex(r) as int32) == Some(r)
  {
  }

  /** The register a random draw selects; draws of 7 and above give `H`. */
  function RegisterFromDraw(draw: uint8): (r: Register)
    ensures draw < 8 ==> ToRegister(draw as int32) == Some(r)
    ensures draw >= 7 ==> r == H
  {
    match draw
    case 0 => A
    case 1 => B
    case 2 => C
    case 3 => D
    case 4 => E
    case 5 => F
    case 6 => G
    case _ => H
  }

  /** Registers are drawn from `0..REGISTER_VARIATION_COUNT`. */
  const REGISTER_VARIATION_COUNT: uint8 := 4

  lemma DrawnRegistersAreFirstFour(draw: uint8)
    requires draw < REGISTER_VARIATION_COUNT
    ensures RegisterFromDraw(draw) in {A, B, C, D}
    ensures RegisterIndex(RegisterFromDraw(draw)) == draw as int
  {
  }

  /** Renders a register as its single-letter name. */
  function RegisterText(r: Register): (s: string)
    ensures |s| == 1 && 'A' <= s[0] <= 'H'
    ensures s[0] as int - 'A' as int == RegisterIndex(r)
  {
    match r
    case A => "A"
    case B => "B"
    case C => "C"
    case D => "D"
    case E => "E"
    case F => "F"
    case G => "G"
    case H => "H"
  }

  /** An instruction operand; the only kind is an 8-bit immediate. */
  datatype Data = Immeadiate(value: uint8)

  datatype Instruction =
    | NOP
    | Load(data: Data, register: Register)
    | Add(data: Data, register: Register)
    | Sub(data: Data, register: Register)
    | JumpZero(data: Data, register: Register)
    | JumpNotZero(data: Data, register: Register)
    | JumpRZero(register1: Register, register2: Register)
    | JumpRNotZero(register1: Register, register2: Register)

  /** The declaration-order discriminant of an instruction's variant. */
  function VariantIndex(i: Instruction): nat {
    match i
    case NOP => 0
    case Load(_, _) => 1
    case Add(_, _) => 2
    case Sub(_, _) => 3
    case JumpZero(_, _) => 4
    case JumpNotZero(_, _) => 5
    case JumpRZero(_, _) => 6
    case JumpRNotZero(_, _) => 7
  }

  /** The instruction a random variant draw selects, given its drawn operands. */
  function InstructionFromDraw(draw: uint8, data: Data, r1: Register, r2: Register): (i: Instruction)
    ensures draw < 8 ==> VariantIndex(i) == draw as int
    ensures draw >= 8 ==> i == NOP
    ensures i.Load? || i.Add? || i.Sub? || i.JumpZero? || i.JumpNotZero? ==> i.data == data && i.register == r1
    ensures i.JumpRZero? || i.JumpRNotZero? ==> i.register1 == r1 && i.register2 == r2
  {
    match draw
    case 1 => Load(data, r1)
    case 2 => Add(data, r1)
    case 3 => Sub(data, r1)
    case 4 => JumpZero(data, r1)
    case 5 => JumpNotZero(data, r1)
    case 6 => JumpRZero(r1, r2)
    case 7 => JumpRNotZero(r1, r2)
    case _ => NOP
  }

  // ---------------------------------------------------------------------
  // Textual rendering

  predicate IsUpperHexDigit(c: char) {
    '0' <= c <= '9' || 'A' <= c <= 'F'
  }

  function HexDigit(n: nat): (c: char)
    requires n < 16
    ensures IsUpperHexDigit(c)
  {
    if n < 10 then ('0' as int + n) as char else ('A' as int + n - 10) as char
  }

  function HexValue(c: char): (n: nat)
    requires IsUpperHexDigit(c)
    ensures n < 16 && HexDigit(n) == c
  {
    if c <= '9' then c as int - '0' as int else c as int - 'A' as int + 10
  }

  /**
   * An immediate renders as `{:#04X}`: the `0x` prefix and two upper-case
   * hexadecimal digits, zero-padded to four characters in all.
   */
  function DataText(d: Data): (s: string)
    ensures |s| == 4 && s[..2] == "0x"
    ensures IsUpperHexDigit(s[2]) && IsUpperHexDigit(s[3])
    ensures HexValue(s[2]) * 16 + HexValue(s[3]) == d.value as int
  {
    var v := d.value as int;
    assert HexValue(HexDigit(v / 16)) == v / 16;
    assert HexValue(HexDigit(v % 16)) == v % 16;
    "0x" + [HexDigit(v / 16), HexDigit(v % 16)]
  }

  lemma DataTextExample()
    ensures DataText(Immeadiate(10)) == "0x0A"
    ensures DataText(Immeadiate(255)) == "0xFF"
  {
  }

  /** The mnemonic every non-NOP rendering starts with. */
  function Mnemonic(i: Instruction): string {
    match i
    case NOP => "NOP"
    case Load(_, _) => "load"
    case Add(_, _) => "add "
    case Sub(_, _) => "sub "
    case JumpZero(_, _) => "JZ "
    case JumpNotZero(_, _) => "JNZ "
    case JumpRZero(_, _) => "JRZ"
    case JumpRNotZero(_, _) => "JRNZ"
  }

  function FirstOperandText(i: Instruction): string
    requires !i.NOP?
  {
    if i.JumpRZero? || i.JumpRNotZero? then RegisterText(i.register1) else DataText(i.data)
  }

  function SecondOperandText(i: Instruction): string
    requires !i.NOP?
  {
    if i.JumpRZero? || i.JumpRNotZero? then RegisterText(i.register2) else RegisterText(i.register)
  }

  /** The `Display` rendering of an instruction. */
  function InstructionText(i: Instruction): (s: string)
    ensures i.NOP? ==> s == "NOP"
    ensures !i.NOP? ==> s == Mnemonic(i) + " " + FirstOperandText(i) + " " + SecondOperandText(i)
  {
    match i
    case NOP => "NOP"
    case Load(d, r) => "load " + DataText(d) + " " + RegisterText(r)
    case Add(d, r) => "add  " + DataText(d) + " " + RegisterText(r)
    case Sub(d, r) => "sub  " + DataText(d) + " " + RegisterText(r)
    case JumpZero(d, r) => "JZ  " + DataText(d) + " " + RegisterText(r)
    case JumpNotZero(d, r) => "JNZ  " + DataText(d) + " " + RegisterText(r)
    case JumpRZero(r1, r2) => "JRZ " + RegisterText(r1) + " " + RegisterText(r2)
    case JumpRNotZero(r1, r2) => "JRNZ " + RegisterText(r1) + " " + RegisterText(r2)
  }

  // Reading a rendering back: the inverse that shows the rendering loses nothing.

  function ParseRegister(s: string): Option<Register> {
    if |s| == 1 && 'A' <= s[0] <= 'H' then ToRegister((s[0] as int - 'A' as int) as int32)
    else None
  }

  function ParseData(s: string): Option<Data> {
    if |s| == 4 && s[..2] == "0x" && IsUpperHexDigit(s[2]) && IsUpperHexDigit(s[3]) then
      Some(Immeadiate((HexValue(s[2]) * 16 + HexValue(s[3])) as uint8))
    else None
  }

  lemma ParseRegisterText(r: Register)
    ensures ParseRegister(RegisterText(r)) == Some(r)
  {
  }

  lemma ParseDataText(d: Data)
    ensures ParseData(DataText(d)) == Some(d)
  {
  }

  /** Parses `m + " " + <data> + " " + <register>`. */
  function ParseDataForm(s: string, m: string): Option<(Data, Register)> {
    var n := |m|;
    if |s| == n + 7 && s[..n + 1] == m + " " && s[n + 5] == ' ' then
      match (ParseData(s[n + 1..n + 5]), ParseRegister(s[n + 6..]))
      case (Some(d), Some(r)) => Some((d, r))
      case _ => None
    else None
  }

  /** Parses `m + " " + <register> + " " + <register>`. */
  function ParseRegisterForm(s: string, m: string): Option<(Register, Register)> {
    var n := |m|;
    if |s| == n + 4 && s[..n + 1] == m + " " && s[n + 2] == ' ' then
      match (ParseRegister(s[n + 1..n + 2]), ParseRegister(s[n + 3..]))
      case (Some(r1), Some(r2)) => Some((r1, r2))
      case _ => None
    else None
  }

  function ParseInstruction(s: string): Option<Instruction> {
    if s == "NOP" then Some(NOP)
    else if ParseDataForm(s, "load").Some? then
      var (d, r) := ParseDataForm(s, "load").value; Some(Load(d, r))
    else if ParseDataForm(s, "add ").Some? then
      var (d, r) := ParseDataForm(s, "add ").value; Some(Add(d, r))
    else if ParseDataForm(s, "sub ").Some? then
      var (d, r) := ParseDataForm(s, "sub ").value; Some(Sub(d, r))
    else if ParseDataForm(s, "JZ ").Some? then
      var (d, r) := ParseDataForm(s, "JZ ").value; Some(JumpZero(d, r))
    else if ParseDataForm(s, "JNZ ").Some? then
      var (d, r) := ParseDataForm(s, "JNZ ").value; Some(JumpNotZero(d, r))
    else if ParseRegisterForm(s, "JRZ").Some? then
      var (r1, r2) := ParseRegisterForm(s, "JRZ").value; Some(JumpRZero(r1, r2))
    else if ParseRegisterForm(s, "JRNZ").Some? then
      var (r1, r2) := ParseRegisterForm(s, "JRNZ").value; Some(JumpRNotZero(r1, r2))
    else None
  }

  lemma ParseDataFormText(m: string, d: Data, r: Register)
    ensures ParseDataForm(m + " " + DataText(d) + " " + RegisterText(r), m) == Some((d, r))
  {
  }

  lemma ParseRegisterFormText(m: string, r1: Register, r2: Register)
    ensures ParseRegisterForm(m + " " + RegisterText(r1) + " " + RegisterText(r2), m) == Some((r1, r2))
  {
  }

  /** A rendering whose character at `k` differs from the form's prefix does not parse as that form. */
  lemma FormMismatch(s: string, m: string, k: nat)
    requires k <= |m| && k < |s| && s[k] != (m + " ")[k]
    ensures ParseDataForm(s, m).None? && ParseRegisterForm(s, m).None?
  {
  }

  /** Every instruction can be read back from its rendering, so distinct instructions render differently. */
  lemma ParseInstructionText(i: Instruction)
    ensures ParseInstruction(InstructionText(i)) == Some(i)
  {
    var s := InstructionText(i);
    match i
    case NOP =>
    case Load(d, r) =>
      ParseDataFormText("load", d, r);
    case Add(d, r) =>
      FormMismatch(s, "load", 0);
      ParseDataFormText("add ", d, r);
    case Sub(d, r) =>
      FormMismatch(s, "load", 0);
      FormMismatch(s, "add ", 0);
      ParseDataFormText("sub ", d, r);
    case JumpZero(d, r) =>
      FormMismatch(s, "load", 0);
      FormMismatch(s, "add ", 0);
      FormMismatch(s, "sub ", 0);
      ParseDataFormText("JZ ", d, r);
    case JumpNotZero(d, r) =>
      FormMismatch(s, "load", 0);
      FormMismatch(s, "add ", 0);
      FormMismatch(s, "sub ", 0);
      FormMismatch(s, "JZ ", 1);
      ParseDataFormText("JNZ ", d, r);
    case JumpRZero(r1, r2) =>
      FormMismatch(s, "load", 0);
      FormMismatch(s, "add ", 0);
      FormMismatch(s, "sub ", 0);
      FormMismatch(s, "JZ ", 1);
      FormMismatch(s, "JNZ ", 1);
      ParseRegisterFormText("JRZ", r1, r2);
    case JumpRNotZero(r1, r2) =>
      FormMismatch(s, "load", 0);
      FormMismatch(s, "add ", 0);
      FormMismatch(s, "sub ", 0);
      FormMismatch(s, "JZ ", 1);
      FormMismatch(s, "JNZ ", 1);
      FormMismatch(s, "JRZ", 2);
      ParseRegisterFormText("JRNZ", r1, r2);
  }

  lemma InstructionTextInjective(i: Instruction, j: Instruction)
    ensures InstructionText(i) == InstructionText(j) <==> i == j
  {
    ParseInstructionText(i);
    ParseInstructionText(j);
  }

  // ---------------------------------------------------------------------
  // The seeded playfield

  /** The playfield at session start: four loads at addresses 2, 4, 8 and 16, NOP elsewhere. */
  method GetInstructions() returns (instructions: seq<Instruction>)
    ensures |instructions| == PLAYFIELD_SIZE
    ensures instructions[2] == Load(Immeadiate(2), A)
    ensures instructions[4] == Load(Immeadiate(4), B)
    ensures instructions[8] == Load(Immeadiate(8), C)
    ensures instructions[16] == Load(Immeadiate(16), D)
    ensures forall a :: 0 <= a < PLAYFIELD_SIZE && a !in {2, 4, 8, 16} ==> instructions[a] == NOP
  {
    var result := new Instruction[PLAYFIELD_SIZE](_ => NOP);
    result[2] := Load(Immeadiate(2), A);
    result[4] := Load(Immeadiate(4), B);
    result[8] := Load(Immeadiate(8), C);
    result[16] := Load(Immeadiate(16), D);
    instructions := result[..];
  }

  // ---------------------------------------------------------------------
  // Geometry

  /** A character-cell coordinate pair. */
  datatype Point = Point(x: int32, y: int32)

  /** A width and height in cells. */
  datatype Size = Size(width: int32, height: int32)

  /** A rectangle described by its four corners and its size. */
  datatype Rect = Rect(topLeft: Point, topRight: Point, bottomRight: Point, bottomLeft: Point, size: Size)

  /** `Point::new`: asserts that both coordinates are non-negative. */
  function NewPoint(x: int32, y: int32): (p: Point)
    requires x >= 0 && y >= 0
    ensures p.x == x && p.y == y && p.x >= 0 && p.y >= 0
  {
    Point(x, y)
  }

  /** `Point::new_safe`: negative coordinates are replaced by zero. */
  method NewSafe(x: int32, y: int32) returns (p: Point)
    ensures p.x >= 0 && p.y >= 0
    ensures x >= 0 ==> p.x == x
    ensures x < 0 ==> p.x == 0
    ensures y >= 0 ==> p.y == y
    ensures y < 0 ==> p.y == 0
  {
    var px, py := x, y;
    px := if px >= 0 then px else 0;
    py := if py >= 0 then py else 0;
    p := Point(px, py);
  }

  /** `Point::add`: the offset point, clamped to be non-negative like `new_safe`. */
  method PointAdd(p: Point, dx: int32, dy: int32) returns (q: Point)
    requires FitsInt32(p.x as int + dx as int) && FitsInt32(p.y as int + dy as int)
    ensures q.x >= 0 && q.y >= 0
    ensures p.x + dx >= 0 ==> q.x == p.x + dx
    ensures p.x + dx < 0 ==> q.x == 0
    ensures p.y + dy >= 0 ==> q.y == p.y + dy
    ensures p.y + dy < 0 ==> q.y == 0
  {
    q := NewSafe(p.x + dx, p.y + dy);
  }

  /** `Size::new`: asserts that both extents are non-negative. */
  function NewSize(width: int32, height: int32): (s: Size)
    requires width >= 0 && height >= 0
    ensures s.width == width && s.height == height && s.width >= 0 && s.height >= 0
  {
    Size(width, height)
  }

  /** The corners of a rectangle agree with its top-left corner and size. */
  predicate WellFormed(r: Rect) {
    && r.topRight == Point(r.bottomRight.x, r.topLeft.y)
    && r.bottomLeft == Point(r.topLeft.x, r.bottomRight.y)
    && r.bottomRight.x as int == r.topLeft.x as int + r.size.width as int
    && r.bottomRight.y as int == r.topLeft.y as int + r.size.height as int
  }

  /**
   * `Rect::from_size`. Each corner goes through `Point::new`, so the origin
   * and the far corner must be non-negative and the sums must fit an i32.
   */
  function FromSize(origin: Point, size: Size): (r: Rect)
    requires origin.x >= 0 && origin.y >= 0
    requires 0 <= origin.x as int + size.width as int <= I32_MAX
    requires 0 <= origin.y as int + size.height as int <= I32_MAX
    ensures r.topLeft == origin && r.size == size
    ensures r.topRight.x as int == origin.x as int + size.width as int && r.topRight.y == origin.y
    ensures r.bottomLeft.x == origin.x && r.bottomLeft.y as int == origin.y as int + size.height as int
    ensures r.bottomRight.x == r.topRight.x && r.bottomRight.y == r.bottomLeft.y
    ensures WellFormed(r)
  {
    var topRight := NewPoint(origin.x + size.width, origin.y);
    var bottomLeft := NewPoint(origin.x, origin.y + size.height);
    var bottomRight := NewPoint(topRight.x, bottomLeft.y);
    Rect(origin, topRight, bottomRight, bottomLeft, size)
  }

  /** `Rect::from_points`: asserts that the bottom-right corner is not above or left of the top-left one. */
  function FromPoints(topLeft: Point, bottomRight: Point): (r: Rect)
    requires topLeft.x >= 0 && topLeft.y >= 0
    requires bottomRight.x >= topLeft.x && bottomRight.y >= topLeft.y
    ensures r.topLeft == topLeft && r.bottomRight == bottomRight
    ensures r.size.width as int == bottomRight.x as int - topLeft.x as int
    ensures r.size.height as int == bottomRight.y as int - topLeft.y as int
    ensures r.topRight == Point(bottomRight.x, topLeft.y) && r.bottomLeft == Point(topLeft.x, bottomRight.y)
    ensures WellFormed(r)
  {
    var size := NewSize(bottomRight.x - topLeft.x, bottomRight.y - topLeft.y);
    FromSize(topLeft, size)
  }

  /** `Rect::from_values`: from_size on an unwrapped origin and size. */
  function FromValues(x: int32, y: int32, width: int32, height: int32): (r: Rect)
    requires x >= 0 && y >= 0 && width >= 0 && height >= 0
    requires x as int + width as int <= I32_MAX && y as int + height as int <= I32_MAX
    ensures r == FromSize(Point(x, y), Size(width, height))
    ensures r.topLeft == Point(x, y) && r.size == Size(width, height)
  {
    var origin := NewPoint(x, y);
    var size := NewSize(width, height);
    FromSize(origin, size)
  }

  /** `Rect::from_point_values`: from_points on unwrapped corners. */
  function FromPointValues(topLeftX: int32, topLeftY: int32, bottomRightX: int32, bottomRightY: int32): (r: Rect)
    requires topLeftX >= 0 && topLeftY >= 0 && bottomRightX >= 0 && bottomRightY >= 0
    requires bottomRightX >= topLeftX && bottomRightY >= topLeftY
    ensures r == FromPoints(Point(topLeftX, topLeftY), Point(bottomRightX, bottomRightY))
    ensures r.topLeft == Point(topLeftX, topLeftY) && r.bottomRight == Point(bottomRightX, bottomRightY)
  {
    var topLeft := NewPoint(topLeftX, topLeftY);
    var bottomRight := NewPoint(bottomRightX, bottomRightY);
    FromPoints(topLeft, bottomRight)
  }

  /** Building a rectangle from a size and rebuilding it from its two opposite corners gives it back. */
  lemma FromSizeFromPoints(origin: Point, size: Size)
    requires origin.x >= 0 && origin.y >= 0 && size.width >= 0 && size.height >= 0
    requires origin.x as int + size.width as int <= I32_MAX
    requires origin.y as int + size.height as int <= I32_MAX
    ensures FromPoints(FromSize(origin, size).topLeft, FromSize(origin, size).bottomRight) == FromSize(origin, size)
  {
  }

  // ---------------------------------------------------------------------
  // The immediate-mode UI context

  /** A widget identity; 0 means "no widget". */
  type UiId = int32

  /** The hot / active / next-hot widget slots, persisting across frames. */
  class UIContext {
    var hot: UiId
    var active: UiId
    var nextHot: UiId

    constructor (hot: UiId, active: UiId, nextHot: UiId)
      ensures this.hot == hot && this.active == active && this.nextHot == nextHot
    {
      this.hot := hot;
      this.active := active;
      this.nextHot := nextHot;
    }

    method SetNotActive()
      modifies this
      ensures active == 0
      ensures hot == old(hot) && nextHot == old(nextHot)
    {
      active := 0;
    }

    method SetActive(id: UiId)
      modifies this
      ensures active == id
      ensures hot == old(hot) && nextHot == old(nextHot)
    {
      active := id;
    }

    method SetNextHot(id: UiId)
      modifies this
      ensures nextHot == id
      ensures hot == old(hot) && active == old(active)
    {
      nextHot := id;
    }

    method SetNotHot()
      modifies this
      ensures hot == 0
      ensures active == old(active) && nextHot == old(nextHot)
    {
      hot := 0;
    }

    /** Start-of-frame reset: hover moves to `nextHot` only while nothing is engaged. */
    method FrameInit()
      modifies this
      ensures old(active) == 0 ==> hot == old(nextHot)
      ensures old(active) != 0 ==> hot == old(hot)
      ensures nextHot == 0
      ensures active == old(active)
    {
      if active == 0 {
        hot := nextHot;
      }
      nextHot := 0;
    }
  }

  // ---------------------------------------------------------------------
  // Cards

  /** A draggable bundle of instructions and its on-screen position. */
  datatype Card = Card(location: Point, instructions: seq<Instruction>)

  /** `Card::new`: the location goes through `Point::new`, so it must be non-negative. */
  function NewCard(x: int32, y: int32, instructions: seq<Instruction>): (c: Card)
    requires x >= 0 && y >= 0
    ensures c.location == Point(x, y) && c.instructions == instructions
  {
    Card(NewPoint(x, y), instructions)
  }
}
