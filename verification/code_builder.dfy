/** `CodeBuilderView`: takes over a prompt handed on by the prompt builder,
    and generates code behind a five-credit gate. */
module CodeBuilderView {
  import opened State
  import opened Text
  import opened Gateway
  import PromptBuilderView
  import Persistence

  datatype Tab = FullApp | QuickSnippet

  /** The code builder's own state; an empty `generated` shows the editor,
      anything else shows the preview. */
  datatype Editor = Editor(tab: Tab, prompt: string, language: string, generated: string)

  const FreshEditor := Editor(FullApp, "", "HTML", "")

  /** Credits one code generation costs. */
  const CodeGenerationCost: nat := 5

  /** A hand-off is pending when the field holds a non-empty string (the
      source tests its truthiness, so both null and "" mean none). */
  predicate HandOffPending(s: AppState) {
    s.handOff.Some? && s.handOff.value != ""
  }

  /** The hand-off effect: a pending prompt is moved into the editor on the
      full-app tab and the field is set to "" so it is used only once. */
  function ConsumeHandOff(app: AppState, e: Editor): (r: (AppState, Editor))
    ensures !HandOffPending(r.0)
    ensures HandOffPending(app) ==>
              && r.1 == e.(tab := FullApp, prompt := app.handOff.value)
              && r.0 == app.(handOff := Some(""))
    ensures !HandOffPending(app) ==> r == (app, e)
  {
    match app.handOff
    case Some(text) =>
      if text != "" then (SetHandOff(app, ""), e.(tab := FullApp, prompt := text)) else (app, e)
    case None => (app, e)
  }

  /** Consuming the hand-off a second time changes nothing. */
  lemma ConsumeHandOffOnce(app: AppState, e: Editor)
    ensures var (app1, e1) := ConsumeHandOff(app, e);
            ConsumeHandOff(app1, e1) == (app1, e1)
  {
  }

  /** A finished prompt sent from the prompt builder arrives in the code
      builder's editor unchanged, and the hand-off is spent. */
  lemma PromptReachesEditor(app: AppState, b: PromptBuilderView.Builder, e: Editor)
    requires b.step == 3 && b.finalPrompt != ""
    ensures var app1 := PromptBuilderView.UseInCodeBuilder(app, b);
            var (app2, e2) := ConsumeHandOff(app1, e);
            && e2.prompt == b.finalPrompt && e2.tab == FullApp
            && app2.view == CodeBuilder && !HandOffPending(app2)
            && app2.credits == app.credits
  {
  }

  /** A reload between handing a prompt over and consuming it loses the
      prompt: the hand-off is not part of what is stored. */
  lemma ReloadDropsHandOff(app: AppState, b: PromptBuilderView.Builder, e: Editor)
    requires b.step == 3 && b.finalPrompt != "" && app.user != None
    ensures var app1 := PromptBuilderView.UseInCodeBuilder(app, b);
            var reloaded := Persistence.Load(Persistence.Mirror(app1)).state;
            ConsumeHandOff(reloaded, e) == (reloaded, e)
  {
    var app1 := PromptBuilderView.UseInCodeBuilder(app, b);
    Persistence.RoundTripSignedIn(app1);
  }

  /** `handleGenerate`. A blank prompt, or a balance below the cost, changes
      nothing (the latter only opens the store prompt); otherwise the cost
      is paid and the reply shown, or the output cleared on failure. The
      credits are spent either way. */
  function Generate(app: AppState, e: Editor, reply: Reply<string>): (r: (AppState, Editor))
    ensures IsBlank(e.prompt) || app.credits < CodeGenerationCost ==> r == (app, e)
    ensures !IsBlank(e.prompt) && app.credits >= CodeGenerationCost ==>
              && r.0 == app.(credits := app.credits - CodeGenerationCost)
              && r.1 == e.(generated := match reply case Replied(code) => code case Failed => "")
  {
    if IsBlank(e.prompt) then (app, e)
    else if app.credits < CodeGenerationCost then (app, e)
    else
      var paid := DeductCredits(app, CodeGenerationCost);
      var code := match reply case Replied(code) => code case Failed => "";
      (paid.after, e.(generated := code))
  }

  /** The coarse `checkCredits` probe would let a generation through that
      the five-credit gate refuses: with 1 to 4 credits nothing is spent. */
  lemma ProbeWeakerThanGate(app: AppState, e: Editor, reply: Reply<string>)
    requires 0 < app.credits < CodeGenerationCost
    ensures CheckCredits(app)
    ensures Generate(app, e, reply) == (app, e)
  {
  }
}
