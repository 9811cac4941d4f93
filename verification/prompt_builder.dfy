/** `PromptBuilderView`: a three-step wizard. Step 1 turns a description
    into suggested details, step 2 turns the details into a finished prompt,
    step 3 shows it and can save it or hand it to the code builder. Each
    AI step is paid for with one credit through the store's gate. */
module PromptBuilderView {
  import opened State
  import opened Text
  import opened Gateway

  type Step = n: int | 1 <= n <= 3 witness 1

  datatype Builder = Builder(step: Step, description: string, form: Ideas, finalPrompt: string)

  const EmptyIdeas := Ideas("", [], "", "", "")

  /** The wizard as it is first shown. */
  const Fresh := Builder(1, "", EmptyIdeas, "")

  /** Credits one AI step of the wizard costs. */
  const StepCost: nat := 1

  /** `handleStep1Submit`, reachable only from step 1. A blank description
      or an empty balance changes nothing; otherwise a credit is paid and a
      reply fills the form and moves to step 2, while a failure leaves the
      wizard as it was. */
  function SubmitDescription(app: AppState, b: Builder, reply: Reply<Ideas>): (r: (AppState, Builder))
    requires b.step == 1
    ensures IsBlank(b.description) || app.credits == 0 ==> r == (app, b)
    ensures !IsBlank(b.description) && app.credits > 0 ==>
              r.0 == app.(credits := app.credits - StepCost)
    ensures !IsBlank(b.description) && app.credits > 0 && reply.Replied? ==>
              r.1 == b.(step := 2, form := reply.value)
    ensures reply.Failed? ==> r.1 == b
  {
    if IsBlank(b.description) then (app, b)
    else if !CheckCredits(app) then (app, b)
    else
      var paid := DeductCredits(app, StepCost).after;
      match reply
      case Replied(ideas) => (paid, b.(form := ideas, step := 2))
      case Failed => (paid, b)
  }

  /** `handleStep2Submit`, reachable only from step 2. An empty balance
      changes nothing; otherwise a credit is paid and a reply becomes the
      final prompt shown on step 3, while a failure leaves the wizard as it was. */
  function SubmitDetails(app: AppState, b: Builder, reply: Reply<string>): (r: (AppState, Builder))
    requires b.step == 2
    ensures app.credits == 0 ==> r == (app, b)
    ensures app.credits > 0 ==> r.0 == app.(credits := app.credits - StepCost)
    ensures app.credits > 0 && reply.Replied? ==> r.1 == b.(step := 3, finalPrompt := reply.value)
    ensures reply.Failed? ==> r.1 == b
  {
    if !CheckCredits(app) then (app, b)
    else
      var paid := DeductCredits(app, StepCost).after;
      match reply
      case Replied(text) => (paid, b.(finalPrompt := text, step := 3))
      case Failed => (paid, b)
  }

  /** The Back buttons of steps 2 and 3: one step back, nothing else lost. */
  function Back(b: Builder): (r: Builder)
    requires b.step > 1
    ensures r.step + 1 == b.step
    ensures r.(step := b.step) == b
  {
    b.(step := b.step - 1)
  }

  /** Step 3's Save: the description becomes the title of the saved prompt. */
  function SaveFinal(app: AppState, b: Builder, id: string, timestamp: string): (r: AppState)
    requires b.step == 3
    ensures r.savedPrompts == [SavedPrompt(id, b.description, b.finalPrompt, timestamp)] + app.savedPrompts
    ensures r.(savedPrompts := app.savedPrompts) == app
  {
    SavePrompt(app, id, timestamp, b.description, b.finalPrompt)
  }

  /** Step 3's "Go to AI Code Builder": hand the prompt over and switch view. */
  function UseInCodeBuilder(app: AppState, b: Builder): (r: AppState)
    requires b.step == 3
    ensures r.handOff == Some(b.finalPrompt) && r.view == CodeBuilder
    ensures r.(handOff := app.handOff, view := app.view) == app
  {
    NavigateTo(SetHandOff(app, b.finalPrompt), CodeBuilder)
  }

  /** Going from a description with a visible character to a finished
      prompt takes two successful AI steps and costs exactly two credits;
      it needs a balance of at least one before each step. */
  lemma DescriptionToFinalPrompt(app: AppState, b: Builder, ideas: Ideas, text: string, i: nat)
    requires b.step == 1 && app.credits >= 2
    requires i < |b.description| && !IsJsWhitespace(b.description[i])
    ensures var (app1, b1) := SubmitDescription(app, b, Replied(ideas));
            b1.step == 2 &&
            var (app2, b2) := SubmitDetails(app1, b1, Replied(text));
            && b2 == Builder(3, b.description, ideas, text)
            && app2 == app.(credits := app.credits - 2 * StepCost)
  {
  }

  /** With a single credit the wizard reaches step 2 but stops there: the
      second step is refused and nothing more is spent. */
  lemma OneCreditStopsAtDetails(app: AppState, b: Builder, ideas: Ideas, reply: Reply<string>, i: nat)
    requires b.step == 1 && app.credits == 1
    requires i < |b.description| && !IsJsWhitespace(b.description[i])
    ensures var (app1, b1) := SubmitDescription(app, b, Replied(ideas));
            b1.step == 2 && app1.credits == 0 &&
            SubmitDetails(app1, b1, reply) == (app1, b1)
  {
  }

  /** A failed suggestion never touches the form, and a retry after it is
      charged again: two attempts, one failed, cost two credits. */
  lemma FailedSuggestionThenRetry(app: AppState, b: Builder, ideas: Ideas, i: nat)
    requires b.step == 1 && app.credits >= 2
    requires i < |b.description| && !IsJsWhitespace(b.description[i])
    ensures var (app1, b1) := SubmitDescription(app, b, Failed);
            && b1 == b
            && SubmitDescription(app1, b1, Replied(ideas))
               == (app.(credits := app.credits - 2 * StepCost), b.(step := 2, form := ideas))
  {
    VisibleCharNotBlank(b.description, i);
    var r1 := SubmitDescription(app, b, Failed);
    assert r1.1 == b;
    assert r1.0.credits == app.credits - StepCost;
    var r2 := SubmitDescription(r1.0, r1.1, Replied(ideas));
    assert r2.0 == app.(credits := app.credits - 2 * StepCost);
    assert r2.1 == b.(step := 2, form := ideas);
  }

  /** Deleting the prompt step 3 just saved, under an id no earlier record
      carries, gives back the store exactly as it was before the save. */
  lemma DeleteUndoesSaveFinal(app: AppState, b: Builder, id: string, timestamp: string)
    requires b.step == 3
    requires forall p :: p in app.savedPrompts ==> p.id != id
    ensures DeletePrompt(SaveFinal(app, b, id, timestamp), id) == app
  {
    DeleteUndoesSave(app, id, timestamp, b.description, b.finalPrompt);
  }

  /** Going back from step 3 and resubmitting the details asks again and
      pays again; the description and suggested details are kept. */
  lemma BackThenResubmit(app: AppState, b: Builder, text: string)
    requires b.step == 3 && app.credits > 0
    ensures SubmitDetails(app, Back(b), Replied(text))
            == (app.(credits := app.credits - StepCost), b.(finalPrompt := text))
  {
  }
}
