/** The fixed-width integers and strings of the original, as subsets of the mathematical ones. */
module QtTypes {

  /** A null pointer, an absent entry, or a value. */
  datatype Option<T> = None | Some(value: T)

  type Byte = x: int | 0 <= x < 0x100

  /** One UTF-16 code unit of a QString. */
  type QChar = x: int | 0 <= x < 0x1_0000

  type QString = seq<QChar>

  type UInt32 = x: int | 0 <= x < 0x1_0000_0000

  type Int32 = x: int | -0x8000_0000 <= x < 0x8000_0000

  type Int64 = x: int | -0x8000_0000_0000_0000 <= x < 0x8000_0000_0000_0000

  /** A C++ conversion to `int`: reduction modulo 2^32 into the signed range. */
  function ToInt32(x: int): (i: Int32)
    ensures (i - x) % 0x1_0000_0000 == 0
  {
    var r := x % 0x1_0000_0000;
    if r < 0x8000_0000 then r else r - 0x1_0000_0000
  }

  /** A C++ conversion to `uint`: reduction modulo 2^32. */
  function ToUInt32(x: int): UInt32 {
    x % 0x1_0000_0000
  }

  /** A QString literal. */
  function Q(s: string): (q: QString)
    ensures |q| == |s|
    ensures forall i :: 0 <= i < |s| ==> q[i] == CodeUnit(s[i])
  {
    seq(|s|, i requires 0 <= i < |s| => CodeUnit(s[i]))
  }

  function CodeUnit(c: char): QChar {
    (c as int) % 0x1_0000
  }
}
