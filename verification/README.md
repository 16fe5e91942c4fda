# Design wizard and image request, modelled in Dafny

This project models the decision-making core of the AI ad and logo generator.
It has four parts:

- **The five-step design wizard** (`WizardForm.jsx`). It covers:
  - the form record and its opening values;
  - the change and checkbox handlers;
  - per-step validation;
  - the forward, back and mode-toggle handlers;
  - `constructPrompt`, which compiles the form into one prompt text.
- **The quick design form** (`AdForm.jsx`): its validation, change handler and submit handler.
- **The pure parts of `generateImage`** (`imageService.js`):
  - size normalisation;
  - the fixed model and image count;
  - the prompt enhancement rule;
  - the placeholder answer when no API key is configured;
  - the base64-to-data-URL rewrite;
  - the error messages.
- **How the parts connect.** What the service sends is determined by what the wizard submits: the same prompt, the size normalised, one image.

Modules:

| module | file | what it holds |
|---|---|---|
| `Options` | options.dfy | optional values, JavaScript truthiness, and the `x \|\| fallback` idiom on strings |
| `Strings` | strings.dfy | `trim` over the ECMAScript whitespace set, `includes`, `join`, and `length` in UTF-16 code units |
| `Seqs` | seqs.dfy | `filter` and `map`, with their membership, order, append and congruence laws |
| `Brief` | brief.dfy | the wizard's form record, its defaults, field access and update, and the checkbox toggle |
| `Catalog` | catalog.dfy | the sixteen phrase tables of `constructPrompt`, and the `table[v] \|\| v + suffix` lookup |
| `Compiler` | compiler.dfy | `constructPrompt` |
| `ErrorMaps` | errors.dfy | the shared "clear this field's error" step of both forms' change handlers |
| `Wizard` | wizard.dfy | the wizard as a state machine: step, form and error object |
| `ImageService` | image_service.dfy | request shaping, the placeholder, response rewriting and error classification |
| `QuickForm` | quick_form.dfy | the quick design form |
| `Pipeline` | pipeline.dfy | a wizard submission handed to the image service |
| `ModeSwitch` | mode_switch.dfy | what the logo toggle's field reset does to the prompt |

`Compiler` works in three steps:

1. Each mode has a fixed order of 16 sentences. Some of them are fixed sentences, emitted for every form whatever their fields hold, even when empty:
   - in the advertisement order: the opening, layout, typography, purpose, headline and description sentences, and the closing;
   - in the logo order: the opening, logo kind and styling sentences, and the closing.

   The remaining sentences are optional.
2. A form's *plan* is that order, filtered by each sentence's inclusion condition. Only the optional sentences carry a condition; for the fixed ones it is always true. An optional sentence's condition is "the field is set": a non-empty string, or a non-empty list for the visual elements and fonts. For photographic style, mood, lighting, perspective and detail level, it is "set and not at its default".
3. The prompt is the concatenation of the planned sentences' texts.

Because of this structure, properties about the prompt reduce to properties of a filter followed by a concatenation.

## Model

| member | source | states |
|---|---|---|
| Brief.Set | ad-generator/src/components/WizardForm.jsx:312-318 | writing a field makes it read back as the new value; every other field, the mode and both tag lists stay as they were |
| Brief.SetSameIsIdentity | ad-generator/src/components/WizardForm.jsx:315-318 | writing back a field's current value leaves the form unchanged |
| Brief.SetTwiceKeepsLast | ad-generator/src/components/WizardForm.jsx:315-318 | of two writes to the same field, only the last one counts |
| Brief.ToggleTag | ad-generator/src/components/WizardForm.jsx:329-351 | ticking appends the value at the end of the group's list even if already present; unticking removes every copy of it; every other tag keeps its count and the tags keep their relative order; the other group and all text fields are untouched |
| Brief.ToggleKeepsTagsDistinct | ad-generator/src/components/WizardForm.jsx:329-351 | a list without duplicates stays without duplicates after unticking, and after ticking a value not yet in it |
| Compiler.OrderIsRanked | ad-generator/src/components/WizardForm.jsx:413-712 | each mode's order has 16 sentences, all of that mode, the i-th at rank i |
| Compiler.OrderMembership | ad-generator/src/components/WizardForm.jsx:413-712 | a sentence is in a mode's order exactly when it belongs to that mode |
| Compiler.PlanMembership | ad-generator/src/components/WizardForm.jsx:413-712 | a sentence is emitted if and only if it belongs to the form's mode and its condition holds: the field is non-empty, or for the five compared fields it is non-empty and differs from its default |
| Compiler.PlanFollowsFixedOrder | ad-generator/src/components/WizardForm.jsx:413-712 | the emitted sentences appear in strictly increasing rank: field values never reorder or repeat sentences |
| Compiler.PlanOpensAndCloses | ad-generator/src/components/WizardForm.jsx:413-712 | every plan has at least two sentences, starts with the mode's opening sentence and ends with its closing sentence |
| Compiler.CompileOpens | ad-generator/src/components/WizardForm.jsx:386-715 | the prompt starts with the mode's opening sentence |
| Compiler.CompileCloses | ad-generator/src/components/WizardForm.jsx:386-715 | the prompt ends with the mode's closing sentence |
| Compiler.CompiledPromptsAreLong | ad-generator/src/components/WizardForm.jsx:572-712 | every prompt, whatever the form holds, is at least 100 characters long |
| Compiler.CompileContainsSentence | ad-generator/src/components/WizardForm.jsx:386-715 | every emitted sentence occurs verbatim in the prompt |
| Compiler.CompileQuotesHeadline | ad-generator/src/components/WizardForm.jsx:466 | an advertisement prompt contains the headline between double quotes, verbatim |
| Compiler.CompileQuotesDescription | ad-generator/src/components/WizardForm.jsx:467 | an advertisement prompt contains the description between double quotes, verbatim |
| Compiler.CompileNamesAudience | ad-generator/src/components/WizardForm.jsx:463 | an advertisement prompt contains the target audience verbatim |
| Compiler.CompileQuotesCompany | ad-generator/src/components/WizardForm.jsx:575 | a logo prompt contains the company name between double quotes, verbatim |
| Compiler.CompileNamesIndustry | ad-generator/src/components/WizardForm.jsx:575 | a logo prompt contains the industry verbatim |
| Compiler.CompileListsLogoElements | ad-generator/src/components/WizardForm.jsx:683-685 | a logo prompt names every ticked visual element verbatim, in whatever order they were ticked |
| Compiler.CompileDescribesAdElements | ad-generator/src/components/WizardForm.jsx:488-506 | an advertisement prompt holds the table phrase (or the raw value) of every ticked visual element |
| Compiler.CompileListsFonts | ad-generator/src/components/WizardForm.jsx:562-564 | a prompt of either mode names every ticked font verbatim (the logo branch does the same at lines 687-689) |
| Compiler.MoodSegment | ad-generator/src/components/WizardForm.jsx:509-520 | each mode's mood sentence belongs to that mode and sits at rank 9 |
| Compiler.IncludedIgnoresMood | ad-generator/src/components/WizardForm.jsx:413-712 | no sentence's condition reads the mood, except the mood sentences' own |
| Compiler.TextIgnoresMood | ad-generator/src/components/WizardForm.jsx:413-712 | no sentence's text reads the mood, except the mood sentences' own |
| Compiler.PlanAroundMood | ad-generator/src/components/WizardForm.jsx:509-520 | a plan is the sentences ranked before the mood, then the mood sentence if it is included, then the sentences ranked after it |
| Compiler.MoodKeepsNeighbours | ad-generator/src/components/WizardForm.jsx:509-520 | changing the mood changes neither the sentences before the mood sentence nor those after it |
| Compiler.MoodInsertsOneSentence | ad-generator/src/components/WizardForm.jsx:509-520 | moving the mood from its default to a non-default value inserts exactly the mood sentence into the plan, between its neighbours |
| Compiler.MoodKeepsNeighbourText | ad-generator/src/components/WizardForm.jsx:509-520 | the text around the mood sentence reads the same whatever the mood |
| Compiler.NeutralMoodText | ad-generator/src/components/WizardForm.jsx:509-520 | with the mood at its default, the prompt is the text before the mood's rank followed by the text after it |
| Compiler.MoodInsertsOneSentenceText | ad-generator/src/components/WizardForm.jsx:509-520 | moving the mood from its default to a non-default value inserts the mood sentence into the prompt text and leaves all other text as it was |
| Compiler.AdMinimalPlan | ad-generator/src/components/WizardForm.jsx:470-569 | an advertisement form whose optional fields are empty or at their defaults gets exactly the seven fixed sentences |
| Compiler.LogoDefaultsAreEmitted | ad-generator/src/components/WizardForm.jsx:621-650 | a logo form with the opening text case, text weight and colour count still gets the three sentences for them |
| Compiler.UnknownLogoTypeFallsBack | ad-generator/src/components/WizardForm.jsx:588 | a logo type the table does not know becomes "professional logo", not the raw value |
| Catalog.Describe | ad-generator/src/components/WizardForm.jsx:428 | `table[v] \|\| v + suffix`: a value the table lists gets its phrase, and any other value gets the raw value followed by the call site's axis word |
| Compiler.UnknownLayoutReachesPrompt | ad-generator/src/components/WizardForm.jsx:428 | an advertisement prompt whose layout the table does not list contains the raw layout followed by " layout" |
| Compiler.KnownLayoutReachesPrompt | ad-generator/src/components/WizardForm.jsx:418-428 | an advertisement prompt whose layout the table lists contains that layout's phrase |
| Compiler.EmptyLogoStyleBorrowsAdStyle | ad-generator/src/components/WizardForm.jsx:613-616 | an empty logo style is described through the advertisement style's table |
| ErrorMaps.ClearError | ad-generator/src/components/WizardForm.jsx:320-326 | the field's error is blank afterwards; the same fields have entries; every other entry is unchanged |
| ErrorMaps.ClearErrorIdempotent | ad-generator/src/components/WizardForm.jsx:320-326 | clearing twice is clearing once; clearing a field without a truthy error changes nothing |
| Wizard.Message | ad-generator/src/components/WizardForm.jsx:356-378 | a field has a non-empty validation message exactly when some step validates it |
| Wizard.ValidatedIffSomeStep | ad-generator/src/components/WizardForm.jsx:356-378 | the fields that have a validation message are exactly those some step of some mode requires |
| Wizard.Check | ad-generator/src/components/WizardForm.jsx:359-361 | checking a field reports an error for it, with its message, exactly when it is blank after trimming |
| Wizard.Checked | ad-generator/src/components/WizardForm.jsx:356-378 | the fields a step checks are exactly those the reference table `Required` lists for the mode and step |
| Wizard.CheckAllExact | ad-generator/src/components/WizardForm.jsx:353-384 | checking a list of fields reports exactly the blank ones, each with its message |
| Wizard.Validate | ad-generator/src/components/WizardForm.jsx:353-384 | the error object holds exactly the step's required fields that are blank after trimming, each with its message |
| Wizard.ValidatePassesIffComplete | ad-generator/src/components/WizardForm.jsx:353-384 | a step passes if and only if none of its required fields is blank |
| Wizard.Next | ad-generator/src/components/WizardForm.jsx:718-733 | the error object is replaced by the step's validation; on failure, nothing moves; on success, the wizard advances, or on the last step submits the compiled prompt, the form's size and one image |
| Wizard.NextAdvancesIffComplete | ad-generator/src/components/WizardForm.jsx:718-722 | the forward handler advances if and only if the step is not the last and its required fields are filled |
| Wizard.SubmitsOnlyFromLastStep | ad-generator/src/components/WizardForm.jsx:718-733 | from a step in range, the forward handler submits exactly when on the last step |
| Wizard.Back | ad-generator/src/components/WizardForm.jsx:735-739 | one step back, except on the first step; the form and errors are untouched |
| Wizard.BackUndoesNext | ad-generator/src/components/WizardForm.jsx:718-739 | going back after a successful forward move returns to the earlier step with the same form |
| Wizard.NextUndoesBack | ad-generator/src/components/WizardForm.jsx:718-739 | going forward after going back returns to the same step when the earlier step is complete |
| Wizard.SetMode | ad-generator/src/components/WizardForm.jsx:741-753 | the mode changes; switching to logo blanks the advertisement type and purpose and keeps every other field, including company name and industry; the step and errors stay |
| Wizard.ModeRoundTrip | ad-generator/src/components/WizardForm.jsx:741-753 | toggling to logo and back loses the advertisement type and purpose |
| Wizard.SetModeIdempotent | ad-generator/src/components/WizardForm.jsx:741-753 | choosing the current mode again changes nothing further |
| Wizard.Edit | ad-generator/src/components/WizardForm.jsx:312-327 | one field gets the new value and nothing else in the form changes; that field's error, if present, becomes blank; the other errors stay |
| Wizard.Toggle | ad-generator/src/components/WizardForm.jsx:329-351 | the tag toggle leaves the step, the errors and every text field unchanged |
| Wizard.ValidateErrorsWellFormed | ad-generator/src/components/WizardForm.jsx:353-384 | validation produces only the messages of validated fields |
| Wizard.NextKeepsInvariant | ad-generator/src/components/WizardForm.jsx:718-733 | the forward handler keeps the step within the five steps and the error object well formed |
| Wizard.EditKeepsInvariant | ad-generator/src/components/WizardForm.jsx:312-327 | an edit keeps the error object well formed |
| Wizard.ApplyKeepsInvariant | ad-generator/src/components/WizardForm.jsx:312-753 | every handler keeps the step in range and the error object well formed |
| Wizard.RunKeepsInvariant | ad-generator/src/components/WizardForm.jsx:312-753 | any sequence of user actions keeps the step in range and the error object well formed |
| Wizard.ReachableStatesInRange | ad-generator/src/components/WizardForm.jsx:96-142 | every state reachable from the opening state has a step in range and a well-formed error object |
| Wizard.ApplySubmitsOneImage | ad-generator/src/components/WizardForm.jsx:725-729 | any single action submits, if at all, a request for one image |
| Wizard.SubmissionsAskForOneImage | ad-generator/src/components/WizardForm.jsx:725-729 | every submission along any sequence of actions asks for one image |
| ModeSwitch.LogoPlanIgnoresAdFields | ad-generator/src/components/WizardForm.jsx:573-712 | a logo form's sentence list does not depend on the advertisement type or purpose |
| ModeSwitch.LogoPromptIgnoresAdFields | ad-generator/src/components/WizardForm.jsx:573-712 | a logo form's prompt does not depend on the advertisement type or purpose |
| ModeSwitch.LogoToggleKeepsPrompt | ad-generator/src/components/WizardForm.jsx:741-753 | toggling to logo compiles the same prompt as changing the mode alone: the reset fields are invisible to the logo prompt |
| ImageService.NormalizeSize | ad-generator/src/services/imageService.js:35-43 | the size sent is always one of the three supported sizes; a supported size passes through; a missing, empty or unsupported one becomes 1024x1024 |
| ImageService.NormalizeSizeIdempotent | ad-generator/src/services/imageService.js:35-43 | normalising a normalised size changes nothing |
| ImageService.Enhance | ad-generator/src/services/imageService.js:51-55 | the suffix is appended exactly when the prompt is non-empty, under 100 UTF-16 units, and mentions neither "style" nor "color scheme" |
| ImageService.EnhanceExtends | ad-generator/src/services/imageService.js:51-55 | the caller's prompt is always a prefix of what is sent, and the two differ exactly when the enhancement condition holds |
| ImageService.LongPromptsUnchanged | ad-generator/src/services/imageService.js:53 | a prompt of 100 or more characters is sent as it is |
| ImageService.Prepare | ad-generator/src/services/imageService.js:17-61 | without an API key, the one-image placeholder body; with one, a request for one `gpt-image-1` image at the normalised size with the enhanced prompt |
| ImageService.RequestIgnoresCount | ad-generator/src/services/imageService.js:45-61 | the caller's image count never reaches the request |
| ImageService.AttachDataUrl | ad-generator/src/services/imageService.js:89-115 | when the first image has base64 data, its URL becomes a PNG data URL of that data and nothing else changes; otherwise the body is returned as it came |
| ImageService.Payload | ad-generator/src/services/imageService.js:101 | a URL has a payload exactly when it starts with the PNG data-URL prefix, and prefix plus payload rebuild the URL |
| ImageService.DataUrlRoundTrip | ad-generator/src/services/imageService.js:98-101 | the payload of the rewritten URL is exactly the base64 data it was built from |
| ImageService.AttachDataUrlIdempotent | ad-generator/src/services/imageService.js:98-111 | rewriting an already rewritten body changes nothing |
| ImageService.ErrorMessage | ad-generator/src/services/imageService.js:121-163 | 401 and 429 give fixed messages; 400 gives "API Error: " plus the server's message or the parameter fallback; other statuses give the server's message or the generic fallback; no response gives the connection message; a setup failure keeps its own message |
| ImageService.FixedMessagesIgnoreServer | ad-generator/src/services/imageService.js:133-136 | for 401 and 429, the server's message has no influence |
| ImageService.BadRequestMessagesAreMarked | ad-generator/src/services/imageService.js:137-149 | every 400 message starts with "API Error: " |
| QuickForm.Validate | ad-generator/src/components/AdForm.jsx:33-44 | only the description can be in error: a blank one is reported as missing; a non-blank one under ten UTF-16 units, padding included, as too short; otherwise no error |
| QuickForm.ValidIff | ad-generator/src/components/AdForm.jsx:33-44 | the form is valid exactly when the description is non-blank and at least ten units long |
| QuickForm.PaddingCounts | ad-generator/src/components/AdForm.jsx:36-39 | "ab" is too short, while "ab" padded with four spaces on each side passes, because the length is taken before trimming |
| QuickForm.Submit | ad-generator/src/components/AdForm.jsx:46-51 | the errors become the validation result, and the form is handed on unchanged exactly when validation passes |
| QuickForm.SubmittedFormsAreValid | ad-generator/src/components/AdForm.jsx:46-51 | a submitted description is never blank and is at least ten units long |
| QuickForm.Edit | ad-generator/src/components/AdForm.jsx:17-31 | the named input gets the new value; its error, if present, becomes blank; the other errors stay |
| QuickForm.EditThenSubmit | ad-generator/src/components/AdForm.jsx:17-51 | after editing the description, submitting reports exactly the new description's problem |
| Pipeline.CompiledPromptsAreNotEnhanced | ad-generator/src/services/imageService.js:51-55 | the service never enhances a wizard prompt, because every compiled prompt is at least 100 characters long |
| Pipeline.WizardSubmissionRequest | ad-generator/src/components/WizardForm.jsx:723-731 | with an API key, a wizard submission becomes a request for one `gpt-image-1` image, with the compiled prompt unchanged and the form's size normalised by the service |
| Pipeline.ParamsOf | ad-generator/src/App.jsx:23-27 | the app forwards the submission's prompt and size to the service and drops its image count |
| Pipeline.DroppedCountIsHarmless | ad-generator/src/App.jsx:23-27 | the request the service builds is the same whether or not the submission's count had been forwarded |
| Strings.TrimEmptyIffBlank | ad-generator/src/components/WizardForm.jsx:359 | `!x.trim()` holds exactly when every character of `x` is ECMAScript whitespace |
| Strings.TrimIsInnerSlice | ad-generator/src/components/WizardForm.jsx:359 | `trim` keeps a contiguous slice of the string, cutting only whitespace from either end |
| Strings.Utf16Length | ad-generator/src/services/imageService.js:53 | `length` counts between one and two units per character, and equals the character count exactly when no character lies outside the Basic Multilingual Plane |
| Strings.JoinContainsEach | ad-generator/src/components/WizardForm.jsx:505 | the joined list contains each of its items |
| Options.OrElse | ad-generator/src/services/imageService.js:37 | `x \|\| fallback` on a string gives `x` when it is present and non-empty, and the fallback otherwise |

## Left out

- Rendering (JSX), the progress bar, CSS and theme: they decide what is shown, not what is computed.
- Which fields each step's screen shows. The event model lets any field be edited at any step. It also accepts the mode-switch event at every step, although the mode buttons appear only on the first step. Both are supersets of what the screens allow, so the invariants hold a fortiori.
- The network call, the environment API key, console logging, `downloadImage`, and the `App`, `ImageDisplay`, `Header` and `Navigation` components: I/O or presentation. The key's presence is a parameter of `ImageService.Prepare`.
- The asynchronous shape of `generateImage`. The model splits it into `Prepare` before the call, `AttachDataUrl` on the response and `ErrorMessage` on a failure.
- An error response whose body is missing. In the catch block of `generateImage`, only the 400 branch and the branch for other statuses read `data.error?.message`, and only those two would fail on a missing body before producing their message. The 401 and 429 branches still give their fixed messages without reading the body. The model always has a body, whose message may be absent. `ImageService.FixedMessagesIgnoreServer` states that the 401 and 429 messages do not depend on it.
- A missing `params.prompt`. The model's prompt is always a string, possibly empty; the empty prompt is modelled.
- A `generatorMode` other than the two modes. `constructPrompt` treats any value other than `advertisement` as a logo, and `validateStep` validates neither.
- Change events naming a field the form does not have, and checkbox events on a group that is not an array. `handleChange` would add a new key and `handleCheckboxChange` would reset the group; the model's fields are fixed.
- The `prompt` field of the wizard's form record. The wizard never reads it.
- Table lookups through inherited object properties (a value such as `constructor`). The model's tables hold only their listed entries.
- The option lists the screens offer for each choice. The tables of `constructPrompt` are modelled, and a value outside them falls back to its raw text, as `constructPrompt` does.

Points of the code's behaviour that are easy to misread; the model follows the code:

- The wizard hands the form's size over unnormalised; only the image service normalises it.
- The logo text case, text weight and colour count sentences are emitted whenever those fields are non-empty, the opening values included.
- Visual elements and fonts keep the order in which they were ticked.
- Fonts are joined as their raw values.
- Ticking a box appends the value without checking for an existing copy.
