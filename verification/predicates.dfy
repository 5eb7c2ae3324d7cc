/** The range predicates `isLetter`, `isNumber` and `isNotDigit` of Main.kt.

Kotlin's `c in 'a'..'z'` is the inclusive comparison `'a' <= c && c <= 'z'` on
character codes, and `num in 1..100` the inclusive comparison on `Int`.
 */
module Predicates {

  /** Kotlin's `Int`. */
  newtype Int32 = x: int | -0x8000_0000 <= x < 0x8000_0000

  /** Reference alphabets, spelled out character by character. */
  const LowerLetters: string := "abcdefghijklmnopqrstuvwxyz"
  const UpperLetters: string := "ABCDEFGHIJKLMNOPQRSTUVWXYZ"
  const Digits: string := "0123456789"

  /** `isLetter`: an ASCII letter of either case. */
  predicate IsLetter(c: char)
  {
    'a' <= c <= 'z' || 'A' <= c <= 'Z'
  }

  /** `isNumber`: an `Int` from 1 to 100 inclusive. */
  predicate IsNumber(num: Int32)
  {
    1 <= num <= 100
  }

  /** `isNotDigit`: anything but an ASCII decimal digit. */
  predicate IsNotDigit(c: char)
  {
    !('0' <= c <= '9')
  }

  /** `isLetter` accepts exactly the 52 letters of the two alphabets. */
  lemma IsLetterIsAlphabet(c: char)
    ensures IsLetter(c) <==> c in LowerLetters || c in UpperLetters
  {
  }

  /** `isNotDigit` rejects exactly the ten decimal digits. */
  lemma IsNotDigitIsNotInDigits(c: char)
    ensures IsNotDigit(c) <==> c !in Digits
  {
  }

  /** Every letter is a non-digit. */
  lemma LetterIsNotDigit(c: char)
    ensures IsLetter(c) ==> IsNotDigit(c)
  {
  }

  /** The bounds of `isNumber` are inclusive: 1 and 100 pass, 0 and 101 do not. */
  lemma IsNumberBounds()
    ensures IsNumber(1) && IsNumber(100)
    ensures !IsNumber(0) && !IsNumber(101)
  {
  }
}
