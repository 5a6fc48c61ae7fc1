/**
 * The name and phone form of the acceptance screen
 * (src/components/ui/PhoneInput.tsx): the phone field is reformatted as
 * `(ddd) ddd-dddd` on every change, the submit button is enabled only
 * for a non-blank name and ten digits, and a submission reaches the
 * caller 500 ms after the click.
 */
module PhoneInput {

  // ---------------------------------------------------------------
  // Digits: `value.replace(/\D/g, '')`
  // ---------------------------------------------------------------

  /** `\d` in a JavaScript regular expression: the ASCII digits only. */
  predicate IsDigit(c: char)
  {
    '0' <= c <= '9'
  }

  predicate AllDigits(s: string)
  {
    forall i :: 0 <= i < |s| ==> IsDigit(s[i])
  }

  /** The digits of `s`, in order. */
  function Digits(s: string): (r: string)
    ensures AllDigits(r) && |r| <= |s|
  {
    if |s| == 0 then ""
    else Digits(s[..|s| - 1]) + (if IsDigit(s[|s| - 1]) then [s[|s| - 1]] else "")
  }

  lemma {:induction false} DigitsAppend(a: string, b: string)
    ensures Digits(a + b) == Digits(a) + Digits(b)
  {
    if |b| == 0 {
      assert a + b == a;
    } else {
      DigitsAppend(a, b[..|b| - 1]);
      assert (a + b)[..|a + b| - 1] == a + b[..|b| - 1];
    }
  }

  /** A digit string is its own digits. */
  lemma {:induction false} DigitsOfDigits(d: string)
    requires AllDigits(d)
    ensures Digits(d) == d
  {
    if |d| > 0 {
      DigitsOfDigits(d[..|d| - 1]);
    }
  }

  // ---------------------------------------------------------------
  // formatPhone
  // ---------------------------------------------------------------

  function Min(a: int, b: int): int
  {
    if a <= b then a else b
  }

  /** The layout formatPhone gives a digit string. */
  function Layout(d: string): string
  {
    if |d| <= 3 then d
    else if |d| <= 6 then "(" + d[..3] + ") " + d[3..]
    else "(" + d[..3] + ") " + d[3..6] + "-" + d[6..Min(10, |d|)]
  }

  /** formatPhone: keep the digits and lay them out. */
  function FormatPhone(value: string): string
  {
    Layout(Digits(value))
  }

  /**
   * The shape of a formatted phone: up to three digits as they are; then
   * "(ddd) " and the rest; from seven digits "(ddd) ddd-" and at most
   * four more, so at most 14 characters.
   */
  lemma FormatPhoneShape(value: string)
    ensures var d := Digits(value); var r := FormatPhone(value);
      && (|d| <= 3 ==> r == d)
      && (4 <= |d| ==> |r| >= 6 && r[0] == '(' && r[1..4] == d[..3] && r[4..6] == ") ")
      && (4 <= |d| <= 6 ==> r[6..] == d[3..])
      && (7 <= |d| ==> |r| == 10 + Min(10, |d|) - 6 && r[6..9] == d[3..6] && r[9] == '-' && r[10..] == d[6..Min(10, |d|)])
      && |r| <= 14
  {
  }

  /** Punctuation followed by a run of digits has exactly those digits. */
  lemma DigitsAfterPunctuation(p: string, x: string)
    requires Digits(p) == "" && AllDigits(x)
    ensures Digits(p + x) == x
  {
    DigitsAppend(p, x);
    DigitsOfDigits(x);
  }

  /** The separators formatPhone inserts carry no digits. */
  lemma SeparatorsHaveNoDigits()
    ensures Digits("(") == "" && Digits(") ") == "" && Digits("-") == ""
  {
  }

  lemma DigitsOfMediumLayout(d: string)
    requires AllDigits(d) && 4 <= |d| <= 6
    ensures Digits(Layout(d)) == d
  {
    var x, y := d[..3], d[3..];
    var a, b := "(" + x, ") " + y;
    assert Layout(d) == a + b;
    SeparatorsHaveNoDigits();
    DigitsAfterPunctuation("(", x);
    DigitsAfterPunctuation(") ", y);
    DigitsAppend(a, b);
    assert x + y == d;
  }

  lemma DigitsOfLongLayout(d: string)
    requires AllDigits(d) && 7 <= |d|
    ensures Digits(Layout(d)) == d[..Min(10, |d|)]
  {
    var m := Min(10, |d|);
    var x, y, z := d[..3], d[3..6], d[6..m];
    assert Layout(d) == "(" + x + ") " + y + "-" + z;
    DigitsOfPunctuated(x, y, z);
    assert x + y + z == d[..m];
  }

  /** "(x) y-z" has the digits x, y and z when those are all digits. */
  lemma DigitsOfPunctuated(x: string, y: string, z: string)
    requires AllDigits(x) && AllDigits(y) && AllDigits(z)
    ensures Digits("(" + x + ") " + y + "-" + z) == x + y + z
  {
    SeparatorsHaveNoDigits();
    var s1 := "(" + x;
    DigitsAfterPunctuation("(", x);
    var s2 := s1 + ") ";
    DigitsAppend(s1, ") ");
    assert Digits(s2) == x;
    var s3 := s2 + y;
    DigitsAppend(s2, y);
    DigitsOfDigits(y);
    var s4 := s3 + "-";
    DigitsAppend(s3, "-");
    assert Digits(s4) == x + y;
    DigitsAppend(s4, z);
    DigitsOfDigits(z);
  }

  /** The digits of the formatted phone: all the input's digits when there are at most ten, else the first ten. */
  lemma FormatPhoneDigits(value: string)
    ensures Digits(FormatPhone(value)) == Digits(value)[..Min(10, |Digits(value)|)]
  {
    var d := Digits(value);
    assert FormatPhone(value) == Layout(d);
    if |d| <= 3 {
      DigitsOfDigits(d);
      assert d[..Min(10, |d|)] == d;
    } else if |d| <= 6 {
      DigitsOfMediumLayout(d);
      assert d[..Min(10, |d|)] == d;
    } else {
      DigitsOfLongLayout(d);
    }
  }

  /** The layout only looks at the first ten digits. */
  lemma LayoutFirstTen(d: string)
    ensures Layout(d[..Min(10, |d|)]) == Layout(d)
  {
    if |d| > 10 {
      var e := d[..10];
      assert e[..3] == d[..3] && e[3..6] == d[3..6] && e[6..Min(10, |e|)] == d[6..Min(10, |d|)];
    } else {
      assert d[..Min(10, |d|)] == d;
    }
  }

  /** formatPhone is idempotent. */
  lemma FormatPhoneIdempotent(value: string)
    ensures FormatPhone(FormatPhone(value)) == FormatPhone(value)
  {
    FormatPhoneDigits(value);
    LayoutFirstTen(Digits(value));
  }

  // ---------------------------------------------------------------
  // trim and isValid
  // ---------------------------------------------------------------

  /** The characters `String.prototype.trim` removes: ECMAScript WhiteSpace and LineTerminator. */
  predicate IsJsSpace(c: char)
  {
    || c == '\t' || c == '\n' || c == '\U{000B}' || c == '\U{000C}' || c == '\r' || c == ' '
    || c == '\U{00A0}' || c == '\U{1680}' || ('\U{2000}' <= c <= '\U{200A}')
    || c == '\U{2028}' || c == '\U{2029}' || c == '\U{202F}' || c == '\U{205F}'
    || c == '\U{3000}' || c == '\U{FEFF}'
  }

  /** Drop leading white space: what is dropped is all white space, and what is left starts with none. */
  function TrimStart(s: string): (r: string)
    ensures |r| <= |s| && r == s[|s| - |r|..]
    ensures forall i :: 0 <= i < |s| - |r| ==> IsJsSpace(s[i])
    ensures |r| > 0 ==> !IsJsSpace(r[0])
  {
    if |s| > 0 && IsJsSpace(s[0]) then TrimStart(s[1..]) else s
  }

  /** Drop trailing white space, symmetrically. */
  function TrimEnd(s: string): (r: string)
    ensures |r| <= |s| && r == s[..|r|]
    ensures forall i :: |r| <= i < |s| ==> IsJsSpace(s[i])
    ensures |r| > 0 ==> !IsJsSpace(r[|r| - 1])
  {
    if |s| > 0 && IsJsSpace(s[|s| - 1]) then TrimEnd(s[..|s| - 1]) else s
  }

  /** trim. */
  function Trim(s: string): string
  {
    TrimEnd(TrimStart(s))
  }

  /** A string trims to nothing exactly when every character in it is white space. */
  lemma TrimEmptyIff(s: string)
    ensures |Trim(s)| == 0 <==> forall i :: 0 <= i < |s| ==> IsJsSpace(s[i])
  {

  }

  /** isValid: a name that is not blank and at least ten digits in the phone. */
  predicate IsValid(name: string, phone: string)
  {
    |Trim(name)| > 0 && |Digits(phone)| >= 10
  }

  /** The disabled state of the submit button. */
  predicate SubmitDisabled(name: string, phone: string, isSubmitting: bool)
  {
    !IsValid(name, phone) || isSubmitting
  }

  /** The guard of handleSubmit: name and phone both non-blank. */
  predicate SubmitGuard(name: string, phone: string)
  {
    |Trim(name)| > 0 && |Trim(phone)| > 0
  }

  /** For a formatted phone, validity means exactly ten digits. */
  lemma ValidFormattedPhone(name: string, value: string)
    ensures IsValid(name, FormatPhone(value)) <==> |Trim(name)| > 0 && |Digits(FormatPhone(value))| == 10
  {
    FormatPhoneDigits(value);
  }

  /** A valid form always passes the submit guard: a phone with digits is not blank. */
  lemma ValidPassesGuard(name: string, phone: string)
    requires IsValid(name, phone)
    ensures SubmitGuard(name, phone)
  {
    var d := Digits(phone);
    NonBlankWithDigit(phone);
    TrimEmptyIff(phone);
  }

  /** A string with a digit has a character that is not white space. */
  lemma {:induction false} NonBlankWithDigit(s: string)
    requires |Digits(s)| > 0
    ensures exists i :: 0 <= i < |s| && !IsJsSpace(s[i])
  {
    if !IsDigit(s[|s| - 1]) {
      NonBlankWithDigit(s[..|s| - 1]);
      var i :| 0 <= i < |s| - 1 && !IsJsSpace(s[..|s| - 1][i]);
      assert s[i] == s[..|s| - 1][i];
    } else {
      assert !IsJsSpace(s[|s| - 1]);
    }
  }

  /** The guard is weaker than validity: a one-digit phone passes it. */
  lemma GuardWeakerThanValid()
    ensures SubmitGuard("a", "1") && !IsValid("a", "1")
  {
    assert !IsJsSpace('a') && !IsJsSpace('1');
    assert TrimStart("a") == "a" && TrimEnd("a") == "a";
    assert TrimStart("1") == "1" && TrimEnd("1") == "1";
    assert "1"[..0] == "";
    assert Digits("1") == "1";
  }

  // ---------------------------------------------------------------
  // The form component
  // ---------------------------------------------------------------

  /** A submission: the trimmed name and phone handed to onSubmit. */
  datatype Submission = Submission(name: string, phone: string)

  /** What the enabled button lets through: a name that is not blank and a ten-digit phone. */
  predicate ValidSubmission(s: Submission)
  {
    |s.name| > 0 && |Digits(s.phone)| == 10
  }

  /**
   * The form's state cells, the onSubmit calls its 500 ms timers still
   * owe (they are never cleared), and those already delivered.
   */
  class PhoneForm {
    var name: string
    var phone: string
    var isSubmitting: bool
    var pending: seq<Submission>
    var delivered: seq<Submission>

    /** The phone cell only ever holds formatted text. */
    predicate Formatted()
      reads this
    {
      FormatPhone(phone) == phone
    }

    /**
     * The phone is formatted; the form is submitting exactly once it has
     * scheduled a submission, it schedules at most one, and what it
     * schedules is a non-blank name and a ten-digit phone.
     */
    predicate Valid()
      reads this
    {
      && Formatted()
      && (isSubmitting <==> pending + delivered != [])
      && |pending| + |delivered| <= 1
      && (pending != [] ==> ValidSubmission(pending[0]))
      && (delivered != [] ==> ValidSubmission(delivered[0]))
    }

    constructor ()
      ensures Valid()
      ensures name == "" && phone == "" && !isSubmitting && pending == [] && delivered == []
    {
      name, phone, isSubmitting := "", "", false;
      pending, delivered := [], [];
    }

    /** The name field's change handler. */
    method NameChanged(value: string)
      requires Valid()
      modifies this
      ensures Valid()
      ensures name == value
      ensures phone == old(phone) && isSubmitting == old(isSubmitting)
      ensures pending == old(pending) && delivered == old(delivered)
    {
      name := value;
    }

    /** handlePhoneChange: store the formatted value. */
    method PhoneChanged(value: string)
      requires Valid()
      modifies this
      ensures Valid()
      ensures phone == FormatPhone(value)
      ensures name == old(name) && isSubmitting == old(isSubmitting)
      ensures pending == old(pending) && delivered == old(delivered)
    {
      FormatPhoneIdempotent(value);
      phone := FormatPhone(value);
    }

    /**
     * handleSubmit: when the guard holds, mark submitting and schedule the
     * call. It keeps the form valid when the submit button was enabled,
     * which is the only way it is reached.
     */
    method Submit()
      requires Valid()
      modifies this
      ensures Formatted()
      ensures !old(SubmitDisabled(name, phone, isSubmitting)) ==> Valid()
      ensures name == old(name) && phone == old(phone) && delivered == old(delivered)
      ensures SubmitGuard(name, phone) ==>
        isSubmitting && pending == old(pending) + [Submission(Trim(name), Trim(phone))]
      ensures !SubmitGuard(name, phone) ==> isSubmitting == old(isSubmitting) && pending == old(pending)
    {
      var trimmedName, trimmedPhone := Trim(name), Trim(phone);
      if |trimmedName| == 0 || |trimmedPhone| == 0 {
        return;
      }
      if !SubmitDisabled(name, phone, isSubmitting) {
        FormattedSubmissionIsTrimmed(name, phone);
        ValidFormattedPhone(name, phone);
      }
      isSubmitting := true;
      pending := pending + [Submission(trimmedName, trimmedPhone)];
    }

    /**
     * A press of the submit button (or Enter in a field): while the button
     * is disabled, because the form is invalid or already submitting,
     * nothing happens; otherwise handleSubmit runs and schedules the
     * phone exactly as shown.
     */
    method SubmitPressed()
      requires Valid()
      modifies this
      ensures Valid()
      ensures name == old(name) && phone == old(phone) && delivered == old(delivered)
      ensures old(SubmitDisabled(name, phone, isSubmitting)) ==>
        isSubmitting == old(isSubmitting) && pending == old(pending)
      ensures !old(SubmitDisabled(name, phone, isSubmitting)) ==>
        isSubmitting && pending == old(pending) + [Submission(Trim(name), phone)]
    {
      if !SubmitDisabled(name, phone, isSubmitting) {
        FormattedSubmissionIsTrimmed(name, phone);
        Submit();
      }
    }

    /** The oldest 500 ms timer fires and calls onSubmit; with none pending nothing happens. */
    method TimerFires()
      requires Valid()
      modifies this
      ensures Valid()
      ensures name == old(name) && phone == old(phone) && isSubmitting == old(isSubmitting)
      ensures old(pending) == [] ==> pending == [] && delivered == old(delivered)
      ensures old(pending) != [] ==> pending == old(pending)[1..] && delivered == old(delivered) + [old(pending)[0]]
    {
      if pending != [] {
        delivered := delivered + [pending[0]];
        pending := pending[1..];
      }
    }
  }

  /** A valid formatted phone passes the guard and is handed on exactly as shown: it has nothing to trim. */
  lemma FormattedSubmissionIsTrimmed(name: string, value: string)
    requires IsValid(name, FormatPhone(value))
    ensures SubmitGuard(name, FormatPhone(value))
    ensures Trim(FormatPhone(value)) == FormatPhone(value)
  {
    ValidPassesGuard(name, FormatPhone(value));
    FormattedEdges(value);
    NothingToTrim(FormatPhone(value));
  }

  /** A formatted phone with ten digits neither starts nor ends with white space. */
  lemma FormattedEdges(value: string)
    requires |Digits(FormatPhone(value))| >= 10
    ensures |FormatPhone(value)| > 0
    ensures !IsJsSpace(FormatPhone(value)[0]) && !IsJsSpace(FormatPhone(value)[|FormatPhone(value)| - 1])
  {
    var d := Digits(value);
    FormatPhoneDigits(value);
    assert |d| >= 10;
    LongLayoutEdges(d);
  }

  /** A layout of ten or more digits opens with '(' and closes with the tenth digit. */
  lemma LongLayoutEdges(d: string)
    requires AllDigits(d) && |d| >= 10
    ensures |Layout(d)| == 14 && Layout(d)[0] == '(' && Layout(d)[13] == d[9]
    ensures !IsJsSpace(Layout(d)[0]) && !IsJsSpace(Layout(d)[13])
  {
    var l := Layout(d);
    assert l == "(" + d[..3] + ") " + d[3..6] + "-" + d[6..10];
    assert IsDigit(d[9]);
  }

  /** A string that neither starts nor ends with white space is its own trim. */
  lemma NothingToTrim(s: string)
    requires |s| > 0 && !IsJsSpace(s[0]) && !IsJsSpace(s[|s| - 1])
    ensures Trim(s) == s
  {
    assert TrimStart(s) == s;
  }
}
