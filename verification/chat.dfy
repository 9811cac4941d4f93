/** `ChatView.handleSend`: one chat turn, split at its `await` into the part
    that runs before the AI call and the part that runs when it settles. */
module ChatView {
  import opened State
  import opened Text
  import opened Gateway
  import opened Persistence

  /** The chat screen's own state: the text in the input box and the busy flag. */
  datatype Draft = Draft(input: string, loading: bool)

  /** State after the first half of a send, and whether the send went ahead. */
  datatype Sent = Sent(app: AppState, draft: Draft, started: bool)

  /** Credits one chat turn costs. */
  const ChatCost: nat := 1

  /** `prev.slice(0, -1)`: everything but the last turn (nothing, if empty). */
  function DropLast(h: seq<Turn>): (r: seq<Turn>)
    ensures |h| > 0 ==> |r| + 1 == |h|
    ensures |h| == 0 ==> r == []
    ensures r <= h
  {
    if |h| == 0 then [] else h[..|h| - 1]
  }

  /** Up to the `await`: a blank message or a send while busy does nothing;
      an empty balance does nothing but open the store prompt; otherwise
      the user's turn is appended, the input cleared, the view marked busy
      and one credit paid. */
  function BeginSend(app: AppState, d: Draft, message: string): (r: Sent)
    ensures r.started <==> !IsBlank(message) && !d.loading && app.credits > 0
    ensures !r.started ==> r.app == app && r.draft == d
    ensures r.started ==> r.app.chatHistory == app.chatHistory + [Turn(UserRole, message)]
    ensures r.started ==> r.app.credits + ChatCost == app.credits
    ensures r.started ==> r.draft == Draft("", true)
    ensures r.app.(chatHistory := app.chatHistory, credits := app.credits) == app
  {
    if IsBlank(message) || d.loading then Sent(app, d, false)
    else if !CheckCredits(app) then Sent(app, d, false)
    else
      var withTurn := ReplaceHistory(app, app.chatHistory + [Turn(UserRole, message)]);
      var paid := DeductCredits(withTurn, ChatCost);
      Sent(paid.after, Draft("", true), true)
  }

  /** After the `await`: a reply is appended as a model turn; a failure
      removes the last turn of the history as it stands then. Either way the
      view stops being busy. */
  function FinishSend(app: AppState, d: Draft, reply: Reply<string>): (r: (AppState, Draft))
    ensures reply.Replied? ==> r.0.chatHistory == app.chatHistory + [Turn(ModelRole, reply.value)]
    ensures reply.Failed? ==> r.0.chatHistory <= app.chatHistory
    ensures reply.Failed? && |app.chatHistory| > 0 ==> |r.0.chatHistory| + 1 == |app.chatHistory|
    ensures r.0.(chatHistory := app.chatHistory) == app
    ensures r.1 == d.(loading := false)
  {
    var app' := match reply
      case Replied(text) => UpdateHistory(app, h => h + [Turn(ModelRole, text)])
      case Failed => UpdateHistory(app, DropLast);
    (app', d.(loading := false))
  }

  /** A whole send with nothing else happening while the AI call is pending.
      A send that goes ahead costs one credit whatever the outcome; on success
      the history grows by exactly the user turn and the reply, and on
      failure it is exactly what it was before. */
  function Send(app: AppState, d: Draft, message: string, reply: Reply<string>): (r: (AppState, Draft))
    ensures IsBlank(message) || d.loading || app.credits == 0 ==> r == (app, d)
    ensures !IsBlank(message) && !d.loading && app.credits > 0 ==>
              && r.0.credits + ChatCost == app.credits
              && r.1 == Draft("", false)
              && r.0.(chatHistory := app.chatHistory, credits := app.credits) == app
    ensures !IsBlank(message) && !d.loading && app.credits > 0 && reply.Failed? ==>
              r.0.chatHistory == app.chatHistory
    ensures !IsBlank(message) && !d.loading && app.credits > 0 && reply.Replied? ==>
              r.0.chatHistory == app.chatHistory + [Turn(UserRole, message), Turn(ModelRole, reply.value)]
  {
    var begun := BeginSend(app, d, message);
    if !begun.started then (app, d)
    else
      var h := app.chatHistory + [Turn(UserRole, message)];
      assert DropLast(h) == app.chatHistory;
      assert h + [Turn(ModelRole, if reply.Replied? then reply.value else "")]
          == app.chatHistory + [Turn(UserRole, message), Turn(ModelRole, if reply.Replied? then reply.value else "")];
      FinishSend(begun.app, begun.draft, reply)
  }

  /** Within one mounted chat view, a second send while one is pending is
      refused, so a double submission can neither pay twice nor append twice. */
  lemma NoDoubleSend(app: AppState, d: Draft, m1: string, m2: string)
    requires BeginSend(app, d, m1).started
    ensures var first := BeginSend(app, d, m1);
            BeginSend(first.app, first.draft, m2) == Sent(first.app, first.draft, false)
  {
  }

  /** Logging out while a send is pending empties the history; the failure
      path then leaves it empty rather than removing anything more. */
  lemma FailureAfterLogout(app: AppState, d: Draft, message: string)
    requires BeginSend(app, d, message).started
    ensures var first := BeginSend(app, d, message);
            FinishSend(Logout(first.app), first.draft, Failed).0.chatHistory == []
  {
  }

  /** The busy flag belongs to the mounted chat view. Navigating away and
      back while a send is pending gives a fresh, idle draft, so a second
      send goes ahead; if the first then fails, `slice(0, -1)` removes the
      second user turn rather than its own, and both sends are paid for. */
  lemma RemountLetsFailureDropLaterTurn(app: AppState, m1: string, i1: nat, m2: string, i2: nat)
    requires i1 < |m1| && !IsJsWhitespace(m1[i1])
    requires i2 < |m2| && !IsJsWhitespace(m2[i2])
    requires app.credits >= 2
    ensures var first := BeginSend(app, Draft("", false), m1);
            var second := BeginSend(first.app, Draft("", false), m2);
            && first.started && second.started
            && FinishSend(second.app, first.draft, Failed).0.chatHistory == app.chatHistory + [Turn(UserRole, m1)]
            && FinishSend(second.app, first.draft, Failed).0.credits + 2 * ChatCost == app.credits
  {
    VisibleCharNotBlank(m1, i1);
    VisibleCharNotBlank(m2, i2);
    var h1 := app.chatHistory + [Turn(UserRole, m1)];
    assert DropLast(h1 + [Turn(UserRole, m2)]) == h1;
  }

  /** Reloading the page while a send is pending: the save effect has
      already stored the user's turn and the lower balance, and the pending
      call is gone with the old page, so no failure path ever removes the
      unanswered turn and the credit stays spent. */
  lemma ReloadMidSendKeepsUnansweredTurn(app: AppState, d: Draft, m: string)
    requires app.user != None
    requires BeginSend(app, d, m).started
    ensures var restored := Load(Mirror(BeginSend(app, d, m).app)).state;
            && restored.chatHistory == app.chatHistory + [Turn(UserRole, m)]
            && restored.credits + ChatCost == app.credits
            && restored.view == Dashboard
  {
    RoundTripSignedIn(BeginSend(app, d, m).app);
  }
}
