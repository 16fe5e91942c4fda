/**
 * How the wizard's submission travels into the image request: the wizard
 * hands over the size unnormalised, and the service normalises it; every
 * compiled prompt is long enough that the service never enhances it.
 */
module Pipeline {
  import opened Options
  import opened Strings
  import opened Brief
  import Compiler
  import Wizard
  import ImageService

  /** The service sends a compiled prompt exactly as compiled. */
  lemma CompiledPromptsAreNotEnhanced(f: FormData)
    ensures ImageService.Enhance(Compiler.Compile(f)) == Compiler.Compile(f)
  {
    Compiler.CompiledPromptsAreLong(f);
    ImageService.LongPromptsUnchanged(Compiler.Compile(f));
  }

  /**
   * The app's hand-off of a submission to the service: it forwards the
   * prompt and the size, and the generator mode, which the service never
   * reads; the submission's image count is not forwarded at all.
   */
  function ParamsOf(s: Wizard.Submission): (r: ImageService.Params)
    ensures r.prompt == s.prompt && r.size == Some(s.size)
    ensures r.n.None?
  {
    ImageService.Params(s.prompt, Some(s.size), None)
  }

  /** Dropping the count is harmless: the request is the one a forwarded count would have produced. */
  lemma DroppedCountIsHarmless(s: Wizard.Submission)
    ensures ImageService.Prepare(ParamsOf(s), true)
      == ImageService.Prepare(ImageService.Params(s.prompt, Some(s.size), Some(s.n)), true)
  {
    ImageService.RequestIgnoresCount(ParamsOf(s), Some(s.n));
  }

  /**
   * A wizard submission with an API key configured becomes a request for one
   * `gpt-image-1` image, with the compiled prompt unchanged and the form's
   * size normalised by the service: any size the form holds outside the
   * supported three is sent as the square default.
   */
  lemma WizardSubmissionRequest(w: Wizard.State)
    requires Wizard.Next(w).submitted.Some?
    ensures ImageService.Prepare(ParamsOf(Wizard.Next(w).submitted.value), true)
      == ImageService.Send(ImageService.Request(
           "gpt-image-1", 1, ImageService.NormalizeSize(Some(w.form.size)), Compiler.Compile(w.form)))
  {
    CompiledPromptsAreNotEnhanced(w.form);
  }
}
