/**
 * The five-step design wizard (`WizardForm`): the step index, the form
 * record and the error object, and the handlers that move between them.
 * Steps are numbered 0..4: basic information, design, content, advanced
 * options, preview ("Preview & Generate"). Only steps 0 and 2 have required
 * fields.
 */
module Wizard {
  import opened Options
  import opened Strings
  import opened Brief
  import opened ErrorMaps
  import Compiler

  /** The index of the preview step, from which the wizard submits. */
  const LastStep: nat := 4

  datatype State = State(step: nat, form: FormData, errors: map<Field, string>)

  /** The wizard as it opens: the first step, the initial record, no errors. */
  const Initial: State := State(0, Defaults, map[])

  /** The step index names one of the five steps. */
  predicate InRange(w: State) {
    w.step <= LastStep
  }

  // ---------------------------------------------------------------------------
  // Validation

  /** Whether a step requires a field to be non-blank, per mode: the reference table for `validateStep`. */
  predicate Required(mode: Mode, step: nat, k: Field) {
    || (step == 0 && mode == Advertisement && k == TargetAudience)
    || (step == 0 && mode == Logo && (k == CompanyName || k == Industry))
    || (step == 2 && mode == Advertisement && (k == Headline || k == Description))
  }

  /** The fields some step validates. */
  predicate Validated(k: Field) {
    k == TargetAudience || k == CompanyName || k == Industry || k == Headline || k == Description
  }

  /** The validated fields are exactly those some step of some mode requires. */
  lemma ValidatedIffSomeStep(k: Field)
    ensures Validated(k) <==> exists m, step :: Required(m, step, k)
  {
    if k == TargetAudience {
      assert Required(Advertisement, 0, k);
    } else if k == CompanyName || k == Industry {
      assert Required(Logo, 0, k);
    } else if k == Headline || k == Description {
      assert Required(Advertisement, 2, k);
    }
  }

  /** The message reported for a blank required field; only validated fields have one. */
  function Message(k: Field): (msg: string)
    ensures msg != "" <==> Validated(k)
  {
    match k
    case TargetAudience => "Please describe your target audience"
    case CompanyName => "Please enter your company name"
    case Industry => "Please enter your industry"
    case Headline => "Please enter a headline for your advertisement"
    case Description => "Please enter a description for your advertisement"
    case _ => ""
  }

  /** `if (!formData[k].trim()) newErrors[k] = message`: an error for `k` exactly when it is blank. */
  function Check(f: FormData, k: Field): (r: map<Field, string>)
    ensures forall j :: j in r <==> j == k && IsBlank(Get(f, k))
    ensures k in r ==> r[k] == Message(k)
  {
    TrimEmptyIffBlank(Get(f, k));
    if Trim(Get(f, k)) == "" then map[k := Message(k)] else map[]
  }

  /** The fields a step checks, in the order `validateStep` checks them. */
  function Checked(mode: Mode, step: nat): (ks: seq<Field>)
    ensures forall k :: k in ks <==> Required(mode, step, k)
  {
    if step == 0 && mode == Advertisement then [TargetAudience]
    else if step == 0 then [CompanyName, Industry]
    else if step == 2 && mode == Advertisement then [Headline, Description]
    else []
  }

  /** The errors of checking the listed fields one after the other. */
  function CheckAll(f: FormData, ks: seq<Field>): map<Field, string> {
    if |ks| == 0 then map[] else Check(f, ks[0]) + CheckAll(f, ks[1..])
  }

  /** Checking a list of fields reports exactly the blank ones among them, each with its message. */
  lemma {:induction false} CheckAllExact(f: FormData, ks: seq<Field>)
    ensures forall k :: k in CheckAll(f, ks) <==> k in ks && IsBlank(Get(f, k))
    ensures forall k :: k in CheckAll(f, ks) ==> CheckAll(f, ks)[k] == Message(k)
  {
    if |ks| > 0 {
      CheckAllExact(f, ks[1..]);
      var head, tail := Check(f, ks[0]), CheckAll(f, ks[1..]);
      assert CheckAll(f, ks) == head + tail;
      forall k
        ensures k in CheckAll(f, ks) <==> k in ks && IsBlank(Get(f, k))
      {
        assert k in ks <==> k == ks[0] || k in ks[1..];
      }
    }
  }

  /**
   * `validateStep`: the error object the step produces. It holds exactly the
   * step's required fields that are blank after trimming, each with its message.
   */
  function Validate(mode: Mode, step: nat, f: FormData): (errs: map<Field, string>)
    ensures forall k :: k in errs <==> Required(mode, step, k) && IsBlank(Get(f, k))
    ensures forall k :: k in errs ==> errs[k] == Message(k)
  {
    CheckAllExact(f, Checked(mode, step));
    CheckAll(f, Checked(mode, step))
  }

  /** A step passes exactly when none of its required fields is blank. */
  lemma ValidatePassesIffComplete(mode: Mode, step: nat, f: FormData)
    ensures Validate(mode, step, f) == map[] <==> forall k :: Required(mode, step, k) ==> !IsBlank(Get(f, k))
  {
    var errs := Validate(mode, step, f);
    if errs != map[] {
      var k :| k in errs;
      assert Required(mode, step, k) && IsBlank(Get(f, k));
    }
  }

  // ---------------------------------------------------------------------------
  // Transitions

  /** What `onSubmit` receives: the compiled prompt, the size as the form holds it, and one image. */
  datatype Submission = Submission(prompt: string, size: string, n: nat)

  /** The wizard after a handler, with the submission it made, if any. */
  datatype Outcome = Outcome(state: State, submitted: Option<Submission>)

  /**
   * `handleNext`: validates the current step, replacing the error object;
   * if validation passes, moves one step forward, or on the last step submits.
   */
  function Next(w: State): (o: Outcome)
    ensures o.state.form == w.form
    ensures o.state.errors == Validate(w.form.generatorMode, w.step, w.form)
    ensures o.state.errors != map[] ==> o.state.step == w.step && o.submitted == None
    ensures o.state.errors == map[] && w.step < LastStep ==> o.state.step == w.step + 1 && o.submitted == None
    ensures o.state.errors == map[] && w.step >= LastStep ==>
      o.state.step == w.step && o.submitted == Some(Submission(Compiler.Compile(w.form), w.form.size, 1))
  {
    var errs := Validate(w.form.generatorMode, w.step, w.form);
    if errs != map[] then Outcome(w.(errors := errs), None)
    else if w.step < LastStep then Outcome(w.(step := w.step + 1, errors := errs), None)
    else Outcome(w.(errors := errs), Some(Submission(Compiler.Compile(w.form), w.form.size, 1)))
  }

  /** `handleBack`: one step back unless on the first step; nothing is validated and nothing else changes. */
  function Back(w: State): (r: State)
    ensures r.form == w.form && r.errors == w.errors
    ensures w.step > 0 ==> r.step + 1 == w.step
    ensures w.step == 0 ==> r == w
  {
    if w.step > 0 then w.(step := w.step - 1) else w
  }

  /**
   * `handleModeToggle`: switching to logo mode blanks the advertisement's
   * type and purpose and keeps the company name and industry; switching to
   * advertisement mode changes the mode alone. The step and errors stay.
   */
  function SetMode(w: State, m: Mode): (r: State)
    ensures r.step == w.step && r.errors == w.errors
    ensures r.form.generatorMode == m
    ensures m == Logo ==> r.form.adType == "" && r.form.purpose == ""
    ensures forall k :: (m == Advertisement || (k != AdType && k != Purpose)) ==> Get(r.form, k) == Get(w.form, k)
    ensures Tags(r.form, VisualElements) == Tags(w.form, VisualElements)
    ensures Tags(r.form, SpecificFonts) == Tags(w.form, SpecificFonts)
  {
    match m
    case Logo => w.(form := w.form.(generatorMode := Logo, adType := "", purpose := ""))
    case Advertisement => w.(form := w.form.(generatorMode := Advertisement))
  }

  /**
   * `handleChange`: writes one text field and blanks that field's error if it
   * had a truthy one.
   */
  function Edit(w: State, k: Field, v: string): (r: State)
    ensures r.step == w.step
    ensures Get(r.form, k) == v
    ensures forall j :: j != k ==> Get(r.form, j) == Get(w.form, j)
    ensures r.form.generatorMode == w.form.generatorMode
    ensures r.form.visualElements == w.form.visualElements && r.form.specificFonts == w.form.specificFonts
    ensures r.errors.Keys == w.errors.Keys
    ensures k in r.errors ==> r.errors[k] == ""
    ensures forall j :: j in w.errors && j != k ==> r.errors[j] == w.errors[j]
  {
    w.(form := Set(w.form, k, v), errors := ClearError(w.errors, k))
  }

  /** `handleCheckboxChange`: ticks or unticks one tag; the step and errors stay. */
  function Toggle(w: State, g: TagGroup, value: string, checked: bool): (r: State)
    ensures r.step == w.step && r.errors == w.errors
    ensures checked ==> Tags(r.form, g) == Tags(w.form, g) + [value]
    ensures !checked ==> value !in Tags(r.form, g)
    ensures forall k :: Get(r.form, k) == Get(w.form, k)
  {
    w.(form := ToggleTag(w.form, g, value, checked))
  }

  // ---------------------------------------------------------------------------
  // Properties of the transitions

  /** A forward move succeeds exactly when the step is not the last and its required fields are filled. */
  lemma NextAdvancesIffComplete(w: State)
    ensures Next(w).state.step == w.step + 1
      <==> w.step < LastStep && forall k :: Required(w.form.generatorMode, w.step, k) ==> !IsBlank(Get(w.form, k))
  {
    ValidatePassesIffComplete(w.form.generatorMode, w.step, w.form);
  }

  /** The last (preview) step requires no field, so a submission is made exactly when the wizard is on that step. */
  lemma SubmitsOnlyFromLastStep(w: State)
    requires InRange(w)
    ensures Next(w).submitted.Some? <==> w.step == LastStep
  {
    ValidatePassesIffComplete(w.form.generatorMode, w.step, w.form);
  }

  /** Going back after a successful forward move returns to the step the move started from. */
  lemma BackUndoesNext(w: State)
    requires w.step < LastStep
    requires forall k :: Required(w.form.generatorMode, w.step, k) ==> !IsBlank(Get(w.form, k))
    ensures Back(Next(w).state).step == w.step
    ensures Back(Next(w).state).form == w.form
  {
    ValidatePassesIffComplete(w.form.generatorMode, w.step, w.form);
  }

  /** Going forward after going back returns to the same step when the earlier step is complete. */
  lemma NextUndoesBack(w: State)
    requires InRange(w) && w.step > 0
    requires forall k :: Required(w.form.generatorMode, w.step - 1, k) ==> !IsBlank(Get(w.form, k))
    ensures Next(Back(w)).state.step == w.step
  {
    var b := Back(w);
    ValidatePassesIffComplete(b.form.generatorMode, b.step, b.form);
  }

  /** Logo mode's blanked fields are advertisement-only: the toggle round trip loses the type and purpose. */
  lemma ModeRoundTrip(w: State)
    ensures SetMode(SetMode(w, Logo), Advertisement).form
      == w.form.(generatorMode := Advertisement, adType := "", purpose := "")
  {
  }

  /** Choosing the mode already chosen a second time changes nothing further. */
  lemma SetModeIdempotent(w: State, m: Mode)
    ensures SetMode(SetMode(w, m), m) == SetMode(w, m)
  {
  }

  // ---------------------------------------------------------------------------
  // Event sequences

  /** The user's actions on the wizard. */
  datatype Event =
    | NextPressed
    | BackPressed
    | ModeChosen(mode: Mode)
    | FieldEdited(field: Field, value: string)
    | TagToggled(group: TagGroup, value: string, checked: bool)

  /** One action: the new state and the submission it made, if any. */
  function Apply(w: State, e: Event): Outcome {
    match e
    case NextPressed => Next(w)
    case BackPressed => Outcome(Back(w), None)
    case ModeChosen(m) => Outcome(SetMode(w, m), None)
    case FieldEdited(k, v) => Outcome(Edit(w, k, v), None)
    case TagToggled(g, v, c) => Outcome(Toggle(w, g, v, c), None)
  }

  /** Replays actions in order: the final state and the submissions made along the way. */
  function Run(w: State, es: seq<Event>): (r: (State, seq<Submission>))
    decreases |es|
  {
    if |es| == 0 then (w, [])
    else
      var o := Apply(w, es[0]);
      var rest := Run(o.state, es[1..]);
      (rest.0, Emitted(o) + rest.1)
  }

  /** The submission an action made, as a list of zero or one. */
  function Emitted(o: Outcome): seq<Submission> {
    if o.submitted.Some? then [o.submitted.value] else []
  }

  /** Every error held is blank or the message of a field the wizard validates. */
  predicate WellFormedErrors(errs: map<Field, string>) {
    forall k :: k in errs ==> Validated(k) && (errs[k] == "" || errs[k] == Message(k))
  }

  predicate ErrorsWellFormed(w: State) {
    WellFormedErrors(w.errors)
  }

  /** Validation produces only messages of validated fields. */
  lemma ValidateErrorsWellFormed(mode: Mode, step: nat, f: FormData)
    ensures WellFormedErrors(Validate(mode, step, f))
  {
    var errs := Validate(mode, step, f);
    assert forall k :: k in errs ==> Required(mode, step, k);
  }

  /** A forward move keeps the step in 0..4 and the error object well formed. */
  lemma NextKeepsInvariant(w: State)
    requires InRange(w) && ErrorsWellFormed(w)
    ensures InRange(Next(w).state) && ErrorsWellFormed(Next(w).state)
  {
    ValidateErrorsWellFormed(w.form.generatorMode, w.step, w.form);
  }

  /** An edit only blanks an error, so the error object stays well formed. */
  lemma EditKeepsInvariant(w: State, k: Field, v: string)
    requires ErrorsWellFormed(w)
    ensures ErrorsWellFormed(Edit(w, k, v))
  {
    var errs := ClearError(w.errors, k);
    assert Edit(w, k, v).errors == errs;
    assert forall j :: j in errs ==> j in w.errors && (errs[j] == "" || errs[j] == w.errors[j]);
  }

  /** One action keeps the step in 0..4 and the error object well formed. */
  lemma ApplyKeepsInvariant(w: State, e: Event)
    requires InRange(w) && ErrorsWellFormed(w)
    ensures InRange(Apply(w, e).state) && ErrorsWellFormed(Apply(w, e).state)
  {
    match e
    case NextPressed => NextKeepsInvariant(w);
    case BackPressed =>
    case ModeChosen(m) =>
    case FieldEdited(k, v) => EditKeepsInvariant(w, k, v);
    case TagToggled(g, v, c) =>
  }

  /** Whatever the user does, the step stays in 0..4 and the errors stay well formed. */
  lemma {:induction false} RunKeepsInvariant(w: State, es: seq<Event>)
    requires InRange(w) && ErrorsWellFormed(w)
    ensures InRange(Run(w, es).0) && ErrorsWellFormed(Run(w, es).0)
    decreases |es|
  {
    if |es| > 0 {
      ApplyKeepsInvariant(w, es[0]);
      RunKeepsInvariant(Apply(w, es[0]).state, es[1..]);
    }
  }

  /** The opening state satisfies the invariant, so every reachable state does. */
  lemma ReachableStatesInRange(es: seq<Event>)
    ensures InRange(Run(Initial, es).0) && ErrorsWellFormed(Run(Initial, es).0)
  {
    RunKeepsInvariant(Initial, es);
  }

  /** An action submits, if at all, one image. */
  lemma ApplySubmitsOneImage(w: State, e: Event)
    ensures forall s :: s in Emitted(Apply(w, e)) ==> s.n == 1
  {
  }

  /** Every submission asks for one image. */
  lemma {:induction false} SubmissionsAskForOneImage(w: State, es: seq<Event>)
    ensures forall s :: s in Run(w, es).1 ==> s.n == 1
    decreases |es|
  {
    if |es| > 0 {
      var o := Apply(w, es[0]);
      ApplySubmitsOneImage(w, es[0]);
      SubmissionsAskForOneImage(o.state, es[1..]);
      assert Run(w, es).1 == Emitted(o) + Run(o.state, es[1..]).1;
    }
  }
}
