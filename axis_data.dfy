/** The record one separating-axis probe fills in: the penetration found
    along the best axis so far and the index of its reference face. */
module SeparatingAxis {

  /** Java's 32-bit signed int. */
  newtype Int32 = n: int | -0x8000_0000 <= n < 0x8000_0000

  /** Java's Double.MAX_VALUE, (2 - 2^-52) * 2^1023, written out exactly. */
  const DoubleMaxValue: real :=
    179769313486231570814527423731704356798070567525844996598917476803157260780028538760589558632766878171540458953514382464234321326889464182768467546703537516986049910576551282076245490090389328944075868508455133942304583236903222948165808559332123348274797826204144723168738177180919299881250404026184124858368.0

  /** The initial penetration, meaning "no axis tested yet": the most
      negative finite double. */
  const NoAxisTested: real := -DoubleMaxValue

  class AxisData {
    var penetration: real
    var referenceFaceIndex: Int32

    constructor ()
      ensures penetration == NoAxisTested && referenceFaceIndex == 0
    {
      penetration := NoAxisTested;
      referenceFaceIndex := 0;
    }

    method SetPenetration(value: real)
      modifies this`penetration
      ensures penetration == value
      ensures referenceFaceIndex == old(referenceFaceIndex)
    {
      penetration := value;
    }

    method SetReferenceFaceIndex(value: Int32)
      modifies this`referenceFaceIndex
      ensures referenceFaceIndex == value
      ensures penetration == old(penetration)
    {
      referenceFaceIndex := value;
    }

    /** Reads the stored penetration; changes nothing. */
    method GetPenetration() returns (v: real)
      ensures v == penetration
    {
      v := penetration;
    }

    /** Reads the stored reference face index; changes nothing. */
    method GetReferenceFaceIndex() returns (v: Int32)
      ensures v == referenceFaceIndex
    {
      v := referenceFaceIndex;
    }
  }
}
