/**
 * The quick design form (`AdForm`): a free-text description and a size,
 * validated on submit.
 */
module QuickForm {
  import opened Options
  import opened Strings
  import opened ErrorMaps

  datatype Form = Form(prompt: string, size: string)

  /** The two inputs, by their `name` attribute. */
  datatype Input = PromptInput | SizeInput

  datatype State = State(form: Form, errors: map<Input, string>)

  /** The form as it opens: no description, the square size, no errors. */
  const Initial: State := State(Form("", "1024x1024"), map[])

  /** The shortest description accepted, in UTF-16 code units of the untrimmed text. */
  const MinLength: nat := 10

  const BlankMessage: string := "Please enter a description for your design"
  const ShortMessage: string := "Design description should be at least 10 characters long"

  /**
   * `validateForm`: a blank description is reported as missing; otherwise a
   * description shorter than ten units, counted with its padding, as too
   * short. Only the description can be in error.
   */
  function Validate(f: Form): (errs: map<Input, string>)
    ensures errs.Keys <= {PromptInput}
    ensures IsBlank(f.prompt) ==> errs == map[PromptInput := BlankMessage]
    ensures !IsBlank(f.prompt) && Utf16Length(f.prompt) < MinLength ==> errs == map[PromptInput := ShortMessage]
    ensures !IsBlank(f.prompt) && Utf16Length(f.prompt) >= MinLength ==> errs == map[]
  {
    TrimEmptyIffBlank(f.prompt);
    if Trim(f.prompt) == "" then map[PromptInput := BlankMessage]
    else if Utf16Length(f.prompt) < MinLength then map[PromptInput := ShortMessage]
    else map[]
  }

  /** The form is valid exactly when the description is non-blank and at least ten units long. */
  lemma ValidIff(f: Form)
    ensures Validate(f) == map[] <==> !IsBlank(f.prompt) && Utf16Length(f.prompt) >= MinLength
  {
    if IsBlank(f.prompt) || Utf16Length(f.prompt) < MinLength {
      assert PromptInput in Validate(f);
    }
  }

  /** Padding counts: spaces around a short non-blank description can make it long enough. */
  lemma PaddingCounts()
    ensures Validate(Form("ab", "1024x1024")) == map[PromptInput := ShortMessage]
    ensures Validate(Form("    ab    ", "1024x1024")) == map[]
  {
    var short := "ab";
    var padded := "    ab    ";
    assert !IsWhitespace(short[0]);
    assert !IsWhitespace(padded[4]);
  }

  /** The submitted form: `onSubmit(formData)` is called only when validation passes, with the form as it is. */
  function Submit(w: State): (r: (State, Option<Form>))
    ensures r.0.form == w.form
    ensures r.0.errors == Validate(w.form)
    ensures r.1.Some? <==> Validate(w.form) == map[]
    ensures r.1.Some? ==> r.1.value == w.form
  {
    var errs := Validate(w.form);
    (w.(errors := errs), if errs == map[] then Some(w.form) else None)
  }

  /** A submitted description is never blank and is at least ten units long. */
  lemma SubmittedFormsAreValid(w: State)
    requires Submit(w).1.Some?
    ensures !IsBlank(Submit(w).1.value.prompt) && Utf16Length(Submit(w).1.value.prompt) >= MinLength
  {
    ValidIff(w.form);
  }

  /** `handleChange`: writes one input and blanks that input's truthy error. */
  function Edit(w: State, k: Input, v: string): (r: State)
    ensures k == PromptInput ==> r.form == w.form.(prompt := v)
    ensures k == SizeInput ==> r.form == w.form.(size := v)
    ensures r.errors.Keys == w.errors.Keys
    ensures k in r.errors ==> r.errors[k] == ""
    ensures forall j :: j in w.errors && j != k ==> r.errors[j] == w.errors[j]
  {
    var form := match k
      case PromptInput => w.form.(prompt := v)
      case SizeInput => w.form.(size := v);
    w.(form := form, errors := ClearError(w.errors, k))
  }

  /** After an edit to the description, resubmitting reports only the new description's problem. */
  lemma EditThenSubmit(w: State, v: string)
    ensures Submit(Edit(w, PromptInput, v)).0.errors == Validate(Form(v, w.form.size))
  {
  }
}
