/**
 * What the logo toggle's field reset means for the prompt: the advertisement
 * type and purpose it blanks are never read by the logo branch of the
 * compiler, so toggling to logo mode compiles the same prompt as changing
 * the mode alone.
 */
module ModeSwitch {
  import opened Brief
  import opened Compiler
  import Seqs
  import Wizard

  /** No sentence's condition reads the advertisement type or purpose. */
  lemma IncludedIgnoresAdFields(s: Segment, f: FormData, adType: string, purpose: string)
    ensures Included(s, f.(adType := adType, purpose := purpose)) == Included(s, f)
  {
  }

  /** No logo sentence's text reads the advertisement type or purpose. */
  lemma LogoTextIgnoresAdFields(s: Segment, f: FormData, adType: string, purpose: string)
    requires ModeOf(s) == Logo
    ensures Text(s, f.(adType := adType, purpose := purpose)) == Text(s, f)
  {
  }

  /** A logo form's sentence list does not depend on the advertisement type or purpose. */
  lemma LogoPlanIgnoresAdFields(f: FormData, adType: string, purpose: string)
    requires f.generatorMode == Logo
    ensures Plan(f.(adType := adType, purpose := purpose)) == Plan(f)
  {
    var g := f.(adType := adType, purpose := purpose);
    var o := Order(Logo);
    forall i | 0 <= i < |o|
      ensures Included(o[i], g) == Included(o[i], f)
    {
      IncludedIgnoresAdFields(o[i], f, adType, purpose);
    }
    Seqs.FilterCongruent(o, s => Included(s, g), s => Included(s, f));
  }

  /** A logo form's prompt does not depend on the advertisement type or purpose. */
  lemma LogoPromptIgnoresAdFields(f: FormData, adType: string, purpose: string)
    requires f.generatorMode == Logo
    ensures Compile(f.(adType := adType, purpose := purpose)) == Compile(f)
  {
    var g := f.(adType := adType, purpose := purpose);
    var ss := Plan(f);
    LogoPlanIgnoresAdFields(f, adType, purpose);
    forall i | 0 <= i < |ss|
      ensures Sentences(g)(ss[i]) == Sentences(f)(ss[i])
    {
      PlanMembership(f, ss[i]);
      LogoTextIgnoresAdFields(ss[i], f, adType, purpose);
    }
    RenderCongruent(ss, Sentences(g), Sentences(f));
  }

  /** Toggling to logo mode compiles the same prompt as setting the mode and keeping every other field. */
  lemma LogoToggleKeepsPrompt(w: Wizard.State)
    ensures Compile(Wizard.SetMode(w, Logo).form) == Compile(w.form.(generatorMode := Logo))
  {
    var g := w.form.(generatorMode := Logo);
    assert Wizard.SetMode(w, Logo).form == g.(adType := "", purpose := "");
    LogoPromptIgnoresAdFields(g, "", "");
  }
}
