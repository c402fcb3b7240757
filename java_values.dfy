/**
 * The Java values the mapper inspects: boxed scalars, arrays, collections and
 * any other object. Only the distinctions the mapper's `instanceof` tests make
 * are kept; where Java renders a value with a method this model cannot see
 * (Double.toString, Object.toString), the value carries the text it renders to.
 */
module JavaValues {

  /** The boxed integral types, all of which the mapper widens to `long`. */
  datatype IntegralType = ByteType | ShortType | IntegerType | LongType

  /** The boxed floating types, both of which the mapper widens to `double`. */
  datatype FloatingType = FloatType | DoubleType

  /**
   * A double, kept opaque: `bits` identifies it (after widening from float)
   * and `text` is what `String.valueOf` renders it as.
   */
  datatype Double = Double(bits: bv64, text: string)

  /** The component type of a Java array, as far as the mapper's dispatch tells them apart. */
  datatype Component =
    | BooleanComponent
    | IntegralComponent(itype: IntegralType)
    | FloatingComponent(ftype: FloatingType)
    | ObjectComponent  // char[], String[], Object[], nested arrays, ...

  datatype Value =
    | Null
    | Boolean(b: bool)
    | Integral(itype: IntegralType, n: int)
    | Floating(ftype: FloatingType, d: Double)
    | Str(s: string)
      /** `primitive` tells `int[]` from `Integer[]`; `text` is what `String.valueOf` gives for the array. */
    | Array(component: Component, primitive: bool, elements: seq<Value>, text: string)
      /** Any `java.util.Collection`, its elements in `toArray()` order. */
    | Collection(elements: seq<Value>, text: string)
    | Other(text: string)

  function MinValue(t: IntegralType): int {
    match t
    case ByteType => -0x80
    case ShortType => -0x8000
    case IntegerType => -0x8000_0000
    case LongType => -0x8000_0000_0000_0000
  }

  function MaxValue(t: IntegralType): int {
    match t
    case ByteType => 0x7f
    case ShortType => 0x7fff
    case IntegerType => 0x7fff_ffff
    case LongType => 0x7fff_ffff_ffff_ffff
  }

  predicate InRange(t: IntegralType, n: int) {
    MinValue(t) <= n <= MaxValue(t)
  }

  /** A 64-bit signed `long`. */
  predicate IsLong(n: int) {
    InRange(LongType, n)
  }

  /** What Java's type system guarantees of an element of an array with this component type. */
  predicate ElementFits(component: Component, primitive: bool, e: Value) {
    if e.Null? then !primitive
    else match component
      case BooleanComponent => e.Boolean?
      case IntegralComponent(t) => e.Integral? && e.itype == t && InRange(t, e.n)
      case FloatingComponent(t) => e.Floating? && e.ftype == t
      case ObjectComponent => true
  }

  /** What Java's type system guarantees of a value (one level deep). */
  predicate WellTyped(v: Value) {
    match v
    case Integral(t, n) => InRange(t, n)
    case Array(c, primitive, elements, _) =>
      forall i | 0 <= i < |elements| :: ElementFits(c, primitive, elements[i])
    case _ => true
  }

  function DecimalDigit(d: nat): char
    requires d < 10
  {
    "0123456789"[d]
  }

  function NatToDecimal(n: nat): (r: string)
    ensures |r| > 0
  {
    if n < 10 then [DecimalDigit(n)] else NatToDecimal(n / 10) + [DecimalDigit(n % 10)]
  }

  /** Java's `Long.toString`. */
  function IntToDecimal(n: int): string {
    if n < 0 then "-" + NatToDecimal(-n) else NatToDecimal(n)
  }

  /** Java's `String.valueOf(Object)`: "null" for null, else the object's `toString()`. */
  function ValueOf(v: Value): string {
    match v
    case Null => "null"
    case Boolean(b) => if b then "true" else "false"
    case Integral(_, n) => IntToDecimal(n)
    case Floating(_, d) => d.text
    case Str(s) => s
    case Array(_, _, _, text) => text
    case Collection(_, text) => text
    case Other(text) => text
  }
}
