/** \Leap\Core\Enum: an immutable enumeration constant with a name, an ordinal
    and a value, compared by ordinal alone. Since instances are never changed
    the constant is a value here; its accessors __name(), __ordinal() and
    __value() are the fields `name`, `ordinal` and `value`. */
module Enumeration {
  import opened Wrappers
  import opened PhpValue
  import Text

  /** An enumeration constant of the concrete subclass `className`. */
  datatype Enum = Enum(className: string, name: string, ordinal: int, value: Value)

  /** What __equals may be handed: null, an enumeration constant, or any other
      PHP value. */
  datatype Operand = NullOperand | EnumOperand(e: Enum) | OtherOperand(v: Value)

  datatype EnumError = CloneNotSupported

  /** __equals($other): a non-null Enum with the same ordinal. */
  predicate Equals(self: Enum, other: Operand): (r: bool)
    ensures r ==> other.EnumOperand?
    ensures other.EnumOperand? ==> (r <==> other.e.ordinal == self.ordinal)
  {
    other != NullOperand && other.EnumOperand? && other.e.ordinal == self.ordinal
  }

  /** __toString(): the string form of the value, where PHP defines one
      without running foreign code. */
  function ToString(self: Enum): (r: Option<string>)
    ensures self.value.Str? ==> r == Some(self.value.s)
    ensures self.value.Null? ==> r == Some("")
  {
    StringForm(self.value)
  }

  /** __clone(): always throws; no copy of a constant ever exists. */
  function Clone(self: Enum): (r: Result<Enum, EnumError>)
    ensures r == Failure(CloneNotSupported)
  {
    Failure(CloneNotSupported)
  }

  /** null and anything that is not an Enum are never equal to a constant. */
  lemma NotEqualToNonEnum(self: Enum, v: Value)
    ensures !Equals(self, NullOperand)
    ensures !Equals(self, OtherOperand(v))
  {
  }

  /** Two constants are equal exactly when their ordinals are. */
  lemma EqualsIffSameOrdinal(a: Enum, b: Enum)
    ensures Equals(a, EnumOperand(b)) <==> a.ordinal == b.ordinal
  {
  }

  /** Equality ignores the name, the value and even the class: constants of
      two different enumerations with one ordinal are equal. */
  lemma EqualsIgnoresNameValueAndClass(a: Enum, className: string, name: string, value: Value)
    ensures Equals(a, EnumOperand(Enum(className, name, a.ordinal, value)))
  {
  }

  lemma EqualsReflexive(a: Enum)
    ensures Equals(a, EnumOperand(a))
  {
  }

  lemma EqualsSymmetric(a: Enum, b: Enum)
    ensures Equals(a, EnumOperand(b)) <==> Equals(b, EnumOperand(a))
  {
  }

  lemma EqualsTransitive(a: Enum, b: Enum, c: Enum)
    requires Equals(a, EnumOperand(b)) && Equals(b, EnumOperand(c))
    ensures Equals(a, EnumOperand(c))
  {
  }

  /** Equal constants may still print differently: __toString follows the
      value, which equality disregards. */
  lemma EqualButDifferentStrings()
    ensures var a, b := Enum("Color", "RED", 0, Str("red")), Enum("Color", "CRIMSON", 0, Str("crimson"));
      Equals(a, EnumOperand(b)) && ToString(a) != ToString(b)
  {
  }

  /** __toString of an integer value is its decimal text, with a leading '-'
      for a negative one. */
  lemma IntegerValueString(self: Enum, i: int)
    requires self.value == Int(i)
    ensures ToString(self) == Some(Text.IntString(i))
    ensures i >= 0 ==> ToString(self) == Some(Text.Decimal(i))
    ensures i < 0 ==> ToString(self) == Some("-" + Text.Decimal(-i))
  {
  }
}
