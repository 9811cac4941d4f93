/** Runs of store operations, as the views issue them one after another,
    and the properties that hold along every such run. */
module Session {
  import opened State
  import Persistence

  /** One call into the store. */
  datatype Op =
    | Navigate(target: View)
    | LogIn(who: User)
    | LogOut
    | Purchase(amount: nat)
    | Deduct(amount: nat)
    | Save(id: string, timestamp: string, title: string, prompt: string)
    | Delete(id: string)
    | SetHistory(history: seq<Turn>)
    | HandOff(text: string)
    | Settings(settings: ChatSettings)

  function Apply(s: AppState, op: Op): AppState {
    match op
    case Navigate(v) => NavigateTo(s, v)
    case LogIn(u) => Login(s, u)
    case LogOut => Logout(s)
    case Purchase(n) => AddCredits(s, n)
    case Deduct(n) => DeductCredits(s, n).after
    case Save(id, ts, t, p) => SavePrompt(s, id, ts, t, p)
    case Delete(id) => DeletePrompt(s, id)
    case SetHistory(h) => ReplaceHistory(s, h)
    case HandOff(t) => SetHandOff(s, t)
    case Settings(cs) => UpdateChatSettings(s, cs)
  }

  /** The state after applying `ops` in order. */
  function Run(s: AppState, ops: seq<Op>): AppState
    decreases |ops|
  {
    if ops == [] then s else Run(Apply(s, ops[0]), ops[1..])
  }

  /** A signed-in user is never on the landing view, so what is rendered is
      always the current view. */
  predicate Consistent(s: AppState) {
    s.user != None ==> s.view != Landing
  }

  /** The sidebar and the in-view buttons only ever navigate to signed-in views. */
  predicate FromUi(op: Op) {
    op.Navigate? ==> op.target != Landing
  }

  /** Every state reached from the initial or a restored state by operations
      the views issue is consistent, so rendering shows exactly its view
      whenever a user is signed in. */
  lemma {:induction false} RunStaysConsistent(s: AppState, ops: seq<Op>)
    requires Consistent(s)
    requires forall i :: 0 <= i < |ops| ==> FromUi(ops[i])
    ensures Consistent(Run(s, ops))
    ensures Run(s, ops).user != None ==> RenderView(Run(s, ops)) == Run(s, ops).view
    decreases |ops|
  {
    if ops != [] {
      RunStaysConsistent(Apply(s, ops[0]), ops[1..]);
    }
  }

  /** Start-up always yields a consistent state. */
  lemma LoadIsConsistent(stored: Persistence.Stored)
    ensures Consistent(Persistence.Load(stored).state)
  {
  }

  /** Only a deduction lowers the balance: logins, logouts, purchases and
      everything else leave it at least where it was. */
  lemma {:induction false} CreditsFallOnlyByDeduction(s: AppState, ops: seq<Op>)
    requires forall i :: 0 <= i < |ops| ==> !ops[i].Deduct?
    ensures Run(s, ops).credits >= s.credits
    decreases |ops|
  {
    if ops != [] {
      CreditsFallOnlyByDeduction(Apply(s, ops[0]), ops[1..]);
    }
  }

  /** Without a deduction or a purchase, a positive balance never moves,
      whatever logins and logouts happen in between. */
  lemma {:induction false} CreditsFixedWithoutLedgerOps(s: AppState, ops: seq<Op>)
    requires s.credits > 0
    requires forall i :: 0 <= i < |ops| ==> !ops[i].Deduct? && !ops[i].Purchase?
    ensures Run(s, ops).credits == s.credits
    decreases |ops|
  {
    if ops != [] {
      CreditsFixedWithoutLedgerOps(Apply(s, ops[0]), ops[1..]);
    }
  }

  /** Saved prompts are changed only by saving and deleting; in particular
      they survive logging out. */
  lemma {:induction false} PromptsChangeOnlyBySaveOrDelete(s: AppState, ops: seq<Op>)
    requires forall i :: 0 <= i < |ops| ==> !ops[i].Save? && !ops[i].Delete?
    ensures Run(s, ops).savedPrompts == s.savedPrompts
    decreases |ops|
  {
    if ops != [] {
      PromptsChangeOnlyBySaveOrDelete(Apply(s, ops[0]), ops[1..]);
    }
  }

  /** The ledger scenario: a first login grants 20 credits on the
      dashboard; four deductions of 5 succeed down to 0, and a fifth is
      refused with the balance left at 0. */
  lemma LedgerScenario(u: User)
    ensures Login(Initial, u).credits == 20 && Login(Initial, u).view == Dashboard
    ensures Run(Initial, [LogIn(u), Deduct(5), Deduct(5), Deduct(5), Deduct(5)]).credits == 0
    ensures var s := Run(Initial, [LogIn(u), Deduct(5), Deduct(5), Deduct(5), Deduct(5)]);
            !DeductCredits(s, 5).ok && DeductCredits(s, 5).after == s
  {
    var ops := [LogIn(u), Deduct(5), Deduct(5), Deduct(5), Deduct(5)];
    var s1 := Login(Initial, u);
    assert ops[1..] == [Deduct(5), Deduct(5), Deduct(5), Deduct(5)];
    assert Run(Initial, ops) == Run(s1, ops[1..]);
    var s2 := s1.(credits := 15);
    assert Run(s1, ops[1..]) == Run(s2, [Deduct(5), Deduct(5), Deduct(5)]);
    var s3 := s1.(credits := 10);
    assert Run(s2, [Deduct(5), Deduct(5), Deduct(5)]) == Run(s3, [Deduct(5), Deduct(5)]);
    var s4 := s1.(credits := 5);
    assert Run(s3, [Deduct(5), Deduct(5)]) == Run(s4, [Deduct(5)]);
    assert Run(s4, [Deduct(5)]) == s1.(credits := 0);
  }
}
