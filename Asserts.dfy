/**
 * The validators of org.wahlzeit.utils.asserts: each either returns normally or throws an
 * IllegalArgumentException carrying the caller's message. They have no side effects, so
 * they are functions whose result says which of the two happened.
 */
module Asserts {
  import opened JavaLang

  /** IntegerAssert.assertPositive */
  function AssertPositive(val: int32, message: Message): (r: Outcome<()>)
    ensures r.Throw? <==> val <= 0
    ensures r.Throw? ==> r.exception == IllegalArgumentException(message)
  {
    if val <= 0 then Throw(IllegalArgumentException(message)) else Return(())
  }

  /** IntegerAssert.assertPositiveZero */
  function AssertPositiveZero(val: int32, message: Message): (r: Outcome<()>)
    ensures r.Throw? <==> val < 0
    ensures r.Throw? ==> r.exception == IllegalArgumentException(message)
  {
    if val < 0 then Throw(IllegalArgumentException(message)) else Return(())
  }

  /** DoubleAssert.assertPositiveZero. DoubleAssert is not part of this model; it is taken to
      behave like IntegerAssert.assertPositiveZero on a real number. */
  function AssertPositiveZeroReal(val: real, message: Message): (r: Outcome<()>)
    ensures r.Throw? <==> val < 0.0
    ensures r.Throw? ==> r.exception == IllegalArgumentException(message)
  {
    if val < 0.0 then Throw(IllegalArgumentException(message)) else Return(())
  }

  /** ObjectAssert.assertNotNull */
  function AssertNotNull<T>(obj: Option<T>, message: Message): (r: Outcome<()>)
    ensures r.Throw? <==> obj.None?
    ensures r.Throw? ==> r.exception == IllegalArgumentException(message)
  {
    if obj.None? then Throw(IllegalArgumentException(message)) else Return(())
  }

  /** The two integer checks differ on exactly one value, zero, and assertPositive is the stricter. */
  lemma IntegerAssertsDifferOnlyAtZero(val: int32, message: Message)
    ensures AssertPositive(val, message).Return? ==> AssertPositiveZero(val, message).Return?
    ensures (AssertPositive(val, message).Throw? && AssertPositiveZero(val, message).Return?) <==> val == 0
  {
  }
}
