/**
 * The contact form: a draft of three text fields, the submit handler that
 * validates it and shows exactly one notification, and the per-field input
 * handlers.
 */
module Contact {
  import opened Text

  /** The form's draft (`formData`). */
  datatype FormData = FormData(name: string, email: string, message: string)

  const EmptyForm: FormData := FormData("", "", "")

  /** The three inputs of the form. */
  datatype Field = Name | Email | Message

  function FieldValue(d: FormData, f: Field): string
  {
    match f
    case Name => d.name
    case Email => d.email
    case Message => d.message
  }

  /** `{ ...formData, <field>: value }`: the draft with one field replaced. */
  function WithField(d: FormData, f: Field, value: string): (r: FormData)
    ensures FieldValue(r, f) == value
    ensures forall g :: g != f ==> FieldValue(r, g) == FieldValue(d, g)
  {
    match f
    case Name => d.(name := value)
    case Email => d.(email := value)
    case Message => d.(message := value)
  }

  // ---------------------------------------------------------------------------
  // The pattern /^[^\s@]+@[^\s@]+\.[^\s@]+$/

  /** ECMAScript `\s`: the WhiteSpace and LineTerminator code points. */
  predicate IsWhitespace(c: char)
  {
    || c == '\t' || c == '\n' || c == '\U{000B}' || c == '\U{000C}' || c == '\r'
    || c == ' ' || c == '\U{00A0}' || c == '\U{1680}'
    || ('\U{2000}' <= c <= '\U{200A}')
    || c == '\U{2028}' || c == '\U{2029}' || c == '\U{202F}' || c == '\U{205F}'
    || c == '\U{3000}' || c == '\U{FEFF}'
  }

  /** The character class `[^\s@]`. */
  predicate IsAddressChar(c: char)
  {
    !IsWhitespace(c) && c != '@'
  }

  /** The repetition `[^\s@]+`. */
  predicate IsAddressRun(s: string)
  {
    |s| > 0 && forall k :: 0 <= k < |s| ==> IsAddressChar(s[k])
  }

  /** The whole pattern matches `s` with its `@` at `at` and its `\.` at `dot`. */
  predicate EmailSplit(s: string, at: int, dot: int)
  {
    && 0 <= at < dot < |s|
    && IsAddressRun(s[..at])
    && s[at] == '@'
    && IsAddressRun(s[at + 1..dot])
    && s[dot] == '.'
    && IsAddressRun(s[dot + 1..])
  }

  /** The meaning of the anchored pattern: some way of splitting `s` matches it. */
  ghost predicate EmailRegexMatches(s: string)
  {
    exists at, dot :: EmailSplit(s, at, dot)
  }

  predicate NoWhitespace(s: string)
  {
    forall k :: 0 <= k < |s| ==> !IsWhitespace(s[k])
  }

  /** A `.` that is neither the first nor the last character of `d`. */
  predicate HasInnerDot(d: string)
  {
    exists p :: 0 < p < |d| - 1 && d[p] == '.'
  }

  /**
   * The test the handler runs, stated as a shape: no whitespace, exactly one
   * `@`, something before it, and an inner `.` after it.
   */
  predicate HasEmailShape(s: string)
  {
    && NoWhitespace(s)
    && CountOf(s, '@') == 1
    && var at := IndexOf(s, '@');
       0 < at < |s| && HasInnerDot(s[at + 1..])
  }

  lemma {:induction false} OnlyAt(s: string, at: int)
    requires 0 <= at < |s| && s[at] == '@' && CountOf(s, '@') == 1
    ensures '@' !in s[..at] && '@' !in s[at + 1..]
  {
    assert s == s[..at] + ([s[at]] + s[at + 1..]);
    CountOfAppend(s[..at], [s[at]] + s[at + 1..], '@');
    CountOfAppend([s[at]], s[at + 1..], '@');
    CountOfZero(s[..at], '@');
    CountOfZero(s[at + 1..], '@');
  }

  lemma RunOfSlice(s: string, i: int, j: int)
    requires 0 <= i < j <= |s|
    requires forall k :: i <= k < j ==> IsAddressChar(s[k])
    ensures IsAddressRun(s[i..j])
  {
    forall k | 0 <= k < j - i ensures IsAddressChar(s[i..j][k]) {
      assert s[i..j][k] == s[i + k];
    }
  }

  lemma {:induction false} SplitHasShape(s: string, at: int, dot: int)
    requires EmailSplit(s, at, dot)
    ensures HasEmailShape(s)
  {
    var local, domain, tld := s[..at], s[at + 1..dot], s[dot + 1..];
    forall k | 0 <= k < |s| ensures !IsWhitespace(s[k]) {
      if k < at {
        assert s[k] == local[k];
      } else if at < k < dot {
        assert s[k] == domain[k - at - 1];
      } else if dot < k {
        assert s[k] == tld[k - dot - 1];
      }
    }
    NoAtInRun(local);
    NoAtInRun(domain);
    NoAtInRun(tld);
    assert s == local + ([s[at]] + (domain + ([s[dot]] + tld)));
    CountOfAppend(local, [s[at]] + (domain + ([s[dot]] + tld)), '@');
    CountOfAppend([s[at]], domain + ([s[dot]] + tld), '@');
    CountOfAppend(domain, [s[dot]] + tld, '@');
    CountOfAppend([s[dot]], tld, '@');
    assert CountOf([s[dot]], '@') == 0;
    assert IndexOf(s, '@') == at by {
      assert s[..at] == local;
      assert s[..at + 1][at] == '@';
    }
    var d := s[at + 1..];
    assert d[dot - at - 1] == '.';
  }

  lemma NoAtInRun(r: string)
    requires IsAddressRun(r)
    ensures CountOf(r, '@') == 0
  {
    assert '@' !in r by {
      forall k | 0 <= k < |r| ensures r[k] != '@' {
        assert IsAddressChar(r[k]);
      }
    }
    CountOfZero(r, '@');
  }

  lemma {:induction false} ShapeHasSplit(s: string) returns (at: int, dot: int)
    requires HasEmailShape(s)
    ensures EmailSplit(s, at, dot)
  {
    at := IndexOf(s, '@');
    var d := s[at + 1..];
    var p :| 0 < p < |d| - 1 && d[p] == '.';
    dot := at + 1 + p;
    OnlyAt(s, at);
    forall k | 0 <= k < |s| && k != at ensures IsAddressChar(s[k]) {
      if k < at {
        assert s[k] == s[..at][k];
      } else {
        assert s[k] == s[at + 1..][k - at - 1];
      }
    }
    RunOfSlice(s, 0, at);
    RunOfSlice(s, at + 1, dot);
    RunOfSlice(s, dot + 1, |s|);
    assert s[dot + 1..] == s[dot + 1..|s|];
  }

  /** The pattern holds exactly when the string has the shape above. */
  lemma {:induction false} EmailPatternCharacterization(s: string)
    ensures EmailRegexMatches(s) <==> HasEmailShape(s)
  {
    if EmailRegexMatches(s) {
      var at, dot :| EmailSplit(s, at, dot);
      SplitHasShape(s, at, dot);
    }
    if HasEmailShape(s) {
      var at, dot := ShapeHasSplit(s);
    }
  }

  // ---------------------------------------------------------------------------
  // Submit

  /** Which of the three branches of the submit handler is taken. */
  datatype Verdict = MissingFields | InvalidEmail | Sent

  /** `!formData.name || !formData.email || !formData.message` is false. */
  predicate AllFilled(d: FormData)
  {
    d.name != "" && d.email != "" && d.message != ""
  }

  /** The two checks of the submit handler, in their order. */
  function Validate(d: FormData): (v: Verdict)
    ensures v == MissingFields <==> !AllFilled(d)
    ensures v == InvalidEmail <==> AllFilled(d) && !EmailRegexMatches(d.email)
    ensures v == Sent <==> AllFilled(d) && EmailRegexMatches(d.email)
  {
    EmailPatternCharacterization(d.email);
    if !AllFilled(d) then MissingFields
    else if !HasEmailShape(d.email) then InvalidEmail
    else Sent
  }

  /** A draft with a well-formed address is sent. */
  lemma AcceptedDraftExample()
    ensures Validate(FormData("Ana", "ana@example.com", "Hi")) == Sent
  {
    var good := "ana@example.com";
    assert good[..3] == "ana" && good[4..11] == "example" && good[12..] == "com";
    LowercaseRun("ana");
    LowercaseRun("example");
    LowercaseRun("com");
    assert EmailSplit(good, 3, 11);
  }

  lemma LowercaseRun(s: string)
    requires |s| > 0 && forall k :: 0 <= k < |s| ==> 'a' <= s[k] <= 'z'
    ensures IsAddressRun(s)
  {
  }

  /** A draft whose address has no `@` is rejected as invalid; one with no address as incomplete. */
  lemma RejectedDraftExamples()
    ensures Validate(FormData("Ana", "not-an-email", "Hi")) == InvalidEmail
    ensures Validate(FormData("Ana", "", "Hi")) == MissingFields
  {
    assert !HasEmailShape("not-an-email") by {
      CountOfZero("not-an-email", '@');
    }
  }

  /** A notification shown by `toast`. */
  datatype Toast = Toast(title: string, description: string, destructive: bool)

  function ToastFor(v: Verdict): Toast
  {
    match v
    case MissingFields => Toast("Error", "Por favor completa todos los campos", true)
    case InvalidEmail => Toast("Error", "Por favor ingresa un email válido", true)
    case Sent => Toast("¡Mensaje enviado!", "Gracias por contactarme. Te responderé pronto.", false)
  }

  /** Each toast tells its branch apart: the user can read off what happened. */
  lemma ToastIdentifiesVerdict(v: Verdict, w: Verdict)
    ensures ToastFor(v) == ToastFor(w) <==> v == w
    ensures ToastFor(v).destructive <==> v != Sent
  {
    assert ToastFor(MissingFields).description[13] != ToastFor(InvalidEmail).description[13];
  }

  /** The form state of the component: the draft and the toasts shown so far. */
  class ContactForm {
    var formData: FormData
    var toasts: seq<Toast>

    constructor ()
      ensures formData == EmptyForm && toasts == []
    {
      formData := EmptyForm;
      toasts := [];
    }

    /** The `onChange` handler of one input. */
    method UpdateField(f: Field, value: string)
      modifies this
      ensures formData == WithField(old(formData), f, value)
      ensures toasts == old(toasts)
    {
      formData := WithField(formData, f, value);
    }

    /** `handleSubmit`: one toast per call; the draft is cleared only on success. */
    method HandleSubmit()
      modifies this
      ensures toasts == old(toasts) + [ToastFor(Validate(old(formData)))]
      ensures Validate(old(formData)) == Sent ==> formData == EmptyForm
      ensures Validate(old(formData)) != Sent ==> formData == old(formData)
    {
      if !AllFilled(formData) {
        toasts := toasts + [ToastFor(MissingFields)];
        return;
      }
      if !HasEmailShape(formData.email) {
        toasts := toasts + [ToastFor(InvalidEmail)];
        return;
      }
      toasts := toasts + [ToastFor(Sent)];
      formData := EmptyForm;
    }
  }
}
