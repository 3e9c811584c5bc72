/**
  Client-side validation feedback on form fields: `validateInput` in
  public/static/js/main.js and the `blur` / `input` listeners that call it.
  A field is a `FormInput` object whose `error` flag stands for the `error`
  CSS class on the element.
 */
module FieldValidation {
  import opened JsText

  // ---------------------------------------------------------------------------
  // The e-mail pattern /^[^\s@]+@[^\s@]+\.[^\s@]+$/
  // ---------------------------------------------------------------------------

  /** A character of the class `[^\s@]`. */
  predicate Plain(c: char) {
    !IsWhitespace(c) && c != '@'
  }

  predicate AllPlain(s: string) {
    forall i | 0 <= i < |s| :: Plain(s[i])
  }

  /**
    The regular expression matches `s` as a whole: a non-empty run of plain
    characters, `@`, a non-empty run, a `.`, and a non-empty run. Backtracking
    lets the `.` be any plain `.` after the `@` with something on both sides.
   */
  predicate MatchesEmailPattern(s: string) {
    exists at: nat, dot: nat | 0 < at && at + 1 < dot && dot + 1 < |s| ::
      && s[at] == '@' && s[dot] == '.'
      && AllPlain(s[..at]) && AllPlain(s[at + 1..dot]) && AllPlain(s[dot + 1..])
  }

  /** An index that holds the only `@` of `s`. */
  predicate OnlyAt(s: string, at: nat) {
    at < |s| && s[at] == '@' && forall k | 0 <= k < |s| && k != at :: s[k] != '@'
  }

  /** A `.` in `s` strictly inside the part after index `at`: neither its first nor its last character. */
  predicate InnerDot(s: string, at: nat, dot: nat) {
    at + 1 < dot < |s| - 1 && s[dot] == '.'
  }

  /**
    The shape of an acceptable address in plain words: no whitespace, exactly
    one `@` with something before it, and after it a `.` that is neither the
    first nor the last character of the domain.
   */
  predicate EmailShaped(s: string) {
    && (forall i | 0 <= i < |s| :: !IsWhitespace(s[i]))
    && exists at: nat | 0 < at < |s| && OnlyAt(s, at) :: exists dot: nat | dot < |s| :: InnerDot(s, at, dot)
  }

  /** The pattern accepts exactly the addresses of that shape. */
  lemma EmailPatternCharacterised(s: string)
    ensures MatchesEmailPattern(s) <==> EmailShaped(s)
  {
    if MatchesEmailPattern(s) {
      var at: nat, dot: nat :| 0 < at && at + 1 < dot && dot + 1 < |s|
        && s[at] == '@' && s[dot] == '.'
        && AllPlain(s[..at]) && AllPlain(s[at + 1..dot]) && AllPlain(s[dot + 1..]);
      forall k | 0 <= k < |s| && k != at
        ensures Plain(s[k])
      {
        if k < at {
          assert s[k] == s[..at][k];
        } else if k < dot {
          assert s[k] == s[at + 1..dot][k - at - 1];
        } else if k > dot {
          assert s[k] == s[dot + 1..][k - dot - 1];
        }
      }
      assert OnlyAt(s, at);
      assert InnerDot(s, at, dot);
    }
    if EmailShaped(s) {
      var at: nat :| 0 < at < |s| && OnlyAt(s, at) && exists dot: nat | dot < |s| :: InnerDot(s, at, dot);
      var dot: nat :| dot < |s| && InnerDot(s, at, dot);
      assert AllPlain(s[..at]);
      assert AllPlain(s[at + 1..dot]);
      assert AllPlain(s[dot + 1..]);
    }
  }

  // ---------------------------------------------------------------------------
  // The verdict of validateInput
  // ---------------------------------------------------------------------------

  /** Whether `validateInput` returns true for a field with value `raw`, the `required` attribute and `type` `inputType`. */
  function Accepts(raw: string, required: bool, inputType: string): (ok: bool)
    ensures required && Trim(raw) == "" ==> !ok
    ensures !required && Trim(raw) == "" ==> ok
    ensures Trim(raw) != "" && inputType == "email" ==> (ok <==> EmailShaped(Trim(raw)))
    ensures Trim(raw) != "" && inputType != "email" ==> ok
  {
    var value := Trim(raw);
    if required && value == "" then false
    else if inputType == "email" && value != "" && !MatchesEmailPattern(value) then
      EmailPatternCharacterised(value);
      false
    else
      EmailPatternCharacterised(value);
      true
  }

  /** A form control as `validateInput` sees it. */
  class FormInput {
    /** `input.value`, untrimmed. */
    var value: string
    /** `input.hasAttribute('required')`. */
    const required: bool
    /** `input.type`. */
    const inputType: string
    /** Whether the element carries the `error` class. */
    var error: bool

    constructor (value: string, required: bool, inputType: string)
      ensures this.value == value && this.required == required && this.inputType == inputType
      ensures !error
    {
      this.value := value;
      this.required := required;
      this.inputType := inputType;
      error := false;
    }

    /**
      `validateInput(this)`: clears the error class, sets it again when the
      field fails, and returns false exactly when it is left set.
     */
    method Validate() returns (ok: bool)
      modifies this
      ensures ok == Accepts(value, required, inputType)
      ensures error == !ok
      ensures value == old(value)
    {
      var trimmed := Trim(value);
      error := false;
      if required && trimmed == "" {
        error := true;
        return false;
      }
      if inputType == "email" && trimmed != "" {
        if !MatchesEmailPattern(trimmed) {
          error := true;
          return false;
        }
      }
      return true;
    }

    /** The `blur` listener: validates unconditionally. */
    method OnBlur()
      modifies this
      ensures error == !Accepts(value, required, inputType)
      ensures value == old(value)
    {
      var _ := Validate();
    }

    /**
      The `input` listener: revalidates only a field already marked as
      failing, so typing never marks a field that was clean.
     */
    method OnInput()
      modifies this
      ensures error == (old(error) && !Accepts(value, required, inputType))
      ensures value == old(value)
    {
      if error {
        var _ := Validate();
      }
    }
  }

  // ---------------------------------------------------------------------------
  // Concrete addresses
  // ---------------------------------------------------------------------------

  /** A usual address has the shape the pattern asks for. */
  lemma ExampleAddressShaped()
    ensures EmailShaped("ivan@mail.ru")
  {
    var s := "ivan@mail.ru";
    assert forall i | 0 <= i < |s| :: 'a' <= s[i] <= 'z' || s[i] == '@' || s[i] == '.';
    assert OnlyAt(s, 4) && InnerDot(s, 4, 9);
  }

  /** A usual address passes on a required e-mail field. */
  lemma ExampleAddressAccepted()
    ensures Accepts("ivan@mail.ru", true, "email")
  {
    var s := "ivan@mail.ru";
    TrimSpan(s, 0, |s|);
    assert s[0..|s|] == s;
    ExampleAddressShaped();
  }

  /** A domain whose only dot is its last character has no inner dot. */
  lemma DotlessDomainNotShaped()
    ensures !EmailShaped("ivan@mail.")
  {
    var t := "ivan@mail.";
    forall at: nat | 0 < at < |t| && OnlyAt(t, at)
      ensures forall dot: nat | dot < |t| :: !InnerDot(t, at, dot)
    {
      assert t[4] == '@';
    }
  }

  /** A domain without an inner dot fails, even with surrounding spaces trimmed. */
  lemma DotlessDomainRejected()
    ensures !Accepts(" ivan@mail. ", false, "email")
  {
    var s := " ivan@mail. ";
    TrimSpan(s, 1, |s| - 1);
    assert s[1..|s| - 1] == "ivan@mail.";
    DotlessDomainNotShaped();
  }
}
