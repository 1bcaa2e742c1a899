/** Kotlin and JVM vocabulary the settings code relies on: nullable values,
    the exceptions it can raise, and the null-safe emptiness test on strings. */
module Kotlin {

  /** A Kotlin nullable value `T?`: None stands for `null`. */
  datatype Option<+T> = None | Some(value: T)

  /** The JVM exceptions that the modelled code raises or lets escape. */
  datatype Exception =
    | NullPointerException      // `x!!` on null, or a member call on a null receiver
    | ClassCastException        // `x as T` on a value of another class
    | NumberFormatException     // `String.toInt()` on a malformed number
    | IllegalArgumentException  // raised explicitly by the menu-tag lookup

  /** The value of a computation, or the exception it raised. */
  datatype Result<+T> = Success(value: T) | Failure(error: Exception)

  /** `CharSequence?.isNullOrEmpty()` and `TextUtils.isEmpty(CharSequence?)`:
      true for null and for the empty string. */
  predicate IsNullOrEmpty(s: Option<string>) {
    s.None? || s.value == ""
  }
}
