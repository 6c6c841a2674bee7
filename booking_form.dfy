/**
 * Field validation of the booking form: each text field is flagged as in
 * error by a string predicate (blank, ten digits, a `\d{n}` pattern, or one
 * of "AM"/"PM"). There is no range check and no cross-field check.
 */
module BookingForm {

  /**
   * The platform's character classes, taken as given: Kotlin's
   * `Char.isDigit()` and `Char.isWhitespace()`, and the class the platform's
   * regular-expression engine gives `\d` (ASCII '0'..'9' in one reading,
   * Unicode decimal digits in another).
   */
  datatype CharClasses = CharClasses(isDigit: char -> bool, isWhitespace: char -> bool,
                                     isRegexDigit: char -> bool)

  /** Every ASCII digit is a digit both for `isDigit()` and for `\d`. */
  ghost predicate ExtendsAscii(cc: CharClasses)
  {
    forall c :: IsAsciiDigit(c) ==> cc.isDigit(c) && cc.isRegexDigit(c)
  }

  /** The text fields of the form, in screen order. */
  datatype Field =
    | Name | MobileNo
    | TripYear | TripMonth | TripDay | TripHour | TripMinute | TripAmPm
    | Destination
    | BookYear | BookMonth | BookDay | BookHour | BookMinute | BookAmPm

  /** The ASCII digits '0'..'9'. */
  predicate IsAsciiDigit(c: char)
  {
    '0' <= c <= '9'
  }

  /** Kotlin's `all { p(it) }`: checks the characters front to back. */
  function All<T>(s: seq<T>, p: T -> bool): (r: bool)
    ensures r <==> forall i :: 0 <= i < |s| ==> p(s[i])
  {
    if s == [] then true else p(s[0]) && All(s[1..], p)
  }

  /** Kotlin's `isBlank()`: empty, or whitespace only. */
  function IsBlank(s: string, cc: CharClasses): (r: bool)
    ensures s == [] ==> r
    ensures r <==> forall i :: 0 <= i < |s| ==> cc.isWhitespace(s[i])
  {
    All(s, cc.isWhitespace)
  }

  /**
   * `s.matches(Regex("\\d{n}"))`: the whole string is matched by n repetitions
   * of `\d` (the class isRegexDigit), each consuming one character.
   */
  function MatchesDigits(s: string, n: nat, isRegexDigit: char -> bool): (r: bool)
    ensures r <==> |s| == n && forall i :: 0 <= i < |s| ==> isRegexDigit(s[i])
  {
    if n == 0 then s == []
    else s != [] && isRegexDigit(s[0]) && MatchesDigits(s[1..], n - 1, isRegexDigit)
  }

  /**
   * The `isError` flag each text field of the form shows for its current
   * value; every field starts empty, and every field flags the empty value.
   */
  function FieldError(f: Field, value: string, cc: CharClasses): (r: bool)
    ensures value == [] ==> r
  {
    match f
    case Name | Destination => IsBlank(value, cc)
    case MobileNo => |value| != 10 || !All(value, cc.isDigit)
    case TripYear | BookYear => !MatchesDigits(value, 4, cc.isRegexDigit)
    case TripMonth | TripDay | TripHour | TripMinute
       | BookMonth | BookDay | BookHour | BookMinute => !MatchesDigits(value, 2, cc.isRegexDigit)
    case TripAmPm | BookAmPm => value !in ["AM", "PM"]
  }

  /** Name and destination are in error exactly when blank: empty or all whitespace. */
  lemma RequiredFieldErrorIffBlank(f: Field, value: string, cc: CharClasses)
    requires f == Name || f == Destination
    ensures FieldError(f, value, cc) <==> forall i :: 0 <= i < |value| ==> cc.isWhitespace(value[i])
    ensures value == [] ==> FieldError(f, value, cc)
  {
  }

  /** The mobile number is in error exactly when it is not ten platform digits. */
  lemma MobileNoErrorIff(value: string, cc: CharClasses)
    ensures FieldError(MobileNo, value, cc) <==>
      |value| != 10 || exists i :: 0 <= i < |value| && !cc.isDigit(value[i])
  {
  }

  /** Ten ASCII digits are a valid mobile number on any platform that counts them as digits. */
  lemma AsciiMobileNoAccepted(value: string, cc: CharClasses)
    requires ExtendsAscii(cc)
    requires |value| == 10 && forall i :: 0 <= i < |value| ==> IsAsciiDigit(value[i])
    ensures !FieldError(MobileNo, value, cc)
  {
  }

  /** Both year fields are valid exactly when they hold four `\d` characters. */
  lemma YearValidIff(f: Field, value: string, cc: CharClasses)
    requires f == TripYear || f == BookYear
    ensures !FieldError(f, value, cc) <==>
      |value| == 4 && forall i :: 0 <= i < |value| ==> cc.isRegexDigit(value[i])
  {
  }

  /** Month, day, hour and minute fields are valid exactly when they hold two `\d` characters. */
  lemma TwoDigitValidIff(f: Field, value: string, cc: CharClasses)
    requires f in {TripMonth, TripDay, TripHour, TripMinute, BookMonth, BookDay, BookHour, BookMinute}
    ensures !FieldError(f, value, cc) <==>
      |value| == 2 && forall i :: 0 <= i < |value| ==> cc.isRegexDigit(value[i])
  {
  }

  /**
   * The two-digit fields check the shape only: "13" and "00" pass, "", "1"
   * and "123" fail, whichever reading of `\d` the platform has.
   */
  lemma TwoDigitNoRangeCheck(cc: CharClasses)
    requires ExtendsAscii(cc)
    ensures !FieldError(TripMonth, "13", cc) && !FieldError(TripDay, "00", cc)
    ensures !FieldError(BookHour, "99", cc) && !FieldError(BookMinute, "60", cc)
    ensures FieldError(TripMonth, "", cc) && FieldError(TripMonth, "1", cc)
    ensures FieldError(BookDay, "123", cc)
  {
  }

  /** The meridiem fields are valid exactly for "AM" and "PM", case-sensitively. */
  lemma MeridiemValidIff(f: Field, value: string, cc: CharClasses)
    requires f == TripAmPm || f == BookAmPm
    ensures !FieldError(f, value, cc) <==> value == "AM" || value == "PM"
    ensures FieldError(f, "am", cc) && FieldError(f, "pm", cc) && FieldError(f, "", cc)
  {
  }

  /**
   * Where `\d` and `isDigit()` are the same class (Unicode decimal digits for
   * both), the mobile check is exactly a whole-string match of `\d{10}`.
   */
  lemma SameDigitClassMobileNo(value: string, cc: CharClasses)
    requires forall c :: cc.isRegexDigit(c) == cc.isDigit(c)
    ensures !FieldError(MobileNo, value, cc) <==> MatchesDigits(value, 10, cc.isRegexDigit)
  {
  }

  /**
   * Where `\d` is narrower than `isDigit()` (ASCII only), the mobile field and
   * the date fields disagree on what a digit is: a platform digit outside `\d`
   * repeated ten times is a valid mobile number, while four of it are not a
   * valid year.
   */
  lemma DigitClassesDiffer(c: char, cc: CharClasses)
    requires cc.isDigit(c) && !cc.isRegexDigit(c)
    ensures !FieldError(MobileNo, seq(10, _ => c), cc)
    ensures FieldError(TripYear, seq(4, _ => c), cc)
  {
  }
}
