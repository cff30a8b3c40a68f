/**
 * The PIN-creation screen: a text field that is re-sanitised on every input
 * event, an error line, and a "Lock the Room" button. The plain-script and
 * the component versions share this logic; the form's state is the field's
 * text and the error text.
 */
module LockScreen {
  import opened Digits

  datatype Form = Form(pin: string, error: string)

  /** The screen as first shown: empty field, no error. */
  const EmptyForm: Form := Form("", "")

  /** The message shown for a submission of the wrong length. */
  const LengthError: string := "Please enter a 3-digit PIN"

  /** Keep only the digits of the raw field text, then the first three. */
  function Sanitize(raw: string): (r: string)
    ensures AllDigits(r)
    ensures |r| <= MaxPinLength
    ensures r <= FilterDigits(raw)
    ensures |r| == if |FilterDigits(raw)| < MaxPinLength then |FilterDigits(raw)| else MaxPinLength
  {
    Take(FilterDigits(raw), MaxPinLength)
  }

  lemma SanitizeIdempotent(raw: string)
    ensures Sanitize(Sanitize(raw)) == Sanitize(raw)
  {
  }

  /** The strings the sanitiser leaves alone are exactly the short digit strings. */
  lemma SanitizeFixpoints(s: string)
    ensures Sanitize(s) == s <==> AllDigits(s) && |s| <= MaxPinLength
  {
  }

  /** Typing `typed` at the end of the already-sanitised field gives the same
      text as sanitising everything ever typed in one go. */
  lemma SanitizeIncremental(raw: string, typed: string)
    ensures Sanitize(Sanitize(raw) + typed) == Sanitize(raw + typed)
  {
    var f := FilterDigits(raw);
    var s := Sanitize(raw);
    FilterDigitsConcat(s, typed);
    FilterDigitsConcat(raw, typed);
    if |f| >= MaxPinLength {
      assert (f + FilterDigits(typed))[..MaxPinLength] == f[..MaxPinLength];
    } else {
      assert s == f;
    }
  }

  /** handlePinChange: the field becomes the sanitised input and the error clears. */
  function HandlePinChange(raw: string): (r: Form)
    ensures r.error == ""
    ensures r.pin == Sanitize(raw)
  {
    Form(Sanitize(raw), "")
  }

  /** The lock button is enabled iff the field holds exactly three
      characters, which is exactly when a submission would be accepted;
      for a sanitised field that means a complete PIN. */
  predicate LockEnabled(form: Form)
    ensures LockEnabled(form) <==> HandleSubmit(form).PinSet?
    ensures AllDigits(form.pin) ==> (LockEnabled(form) <==> IsPin(form.pin))
  {
    |form.pin| == MaxPinLength
  }

  /** After an input event the button is enabled iff the raw text held at
      least three digits, and then the field is a complete PIN. */
  lemma LockEnabledAfterInput(raw: string)
    ensures LockEnabled(HandlePinChange(raw)) <==> |FilterDigits(raw)| >= MaxPinLength
    ensures LockEnabled(HandlePinChange(raw)) ==> IsPin(HandlePinChange(raw).pin)
  {
  }

  datatype Submission =
    | Invalid(form: Form)  // error shown, nothing stored, screen unchanged
    | PinSet(pin: string)  // onPinSet(pin) / storePin(pin) and switch screens

  /** handleSubmit / handlePinSubmit: only a three-character field is accepted. */
  function HandleSubmit(form: Form): (r: Submission)
    ensures r.PinSet? <==> |form.pin| == MaxPinLength
    ensures r.PinSet? ==> r.pin == form.pin
    ensures r.Invalid? ==> r.form.pin == form.pin && r.form.error == LengthError
  {
    if |form.pin| != MaxPinLength then Invalid(form.(error := LengthError))
    else PinSet(form.pin)
  }

  /** Whatever reaches the store through the form is a complete PIN: the
      first three digits of what was typed. */
  lemma SubmittedPinIsPin(raw: string)
    ensures var s := HandleSubmit(HandlePinChange(raw));
      s.PinSet? ==> IsPin(s.pin) && s.pin == FilterDigits(raw)[..MaxPinLength]
  {
  }
}
