/** The application state store of `App`: one immutable record and the named
    operations through which every view changes it. Each operation is an
    atomic, synchronous update; React's batching is not modelled. */
module State {

  datatype Option<T> = None | Some(value: T)

  /** The named screens of the single-page app. */
  datatype View =
    | Landing | Dashboard | Chat | PromptBuilder | CodeBuilder | Generator | History | Store

  datatype User = User(name: string, email: string)

  /** `id` and `timestamp` come from the clock in the source; here they are inputs. */
  datatype SavedPrompt = SavedPrompt(id: string, title: string, prompt: string, timestamp: string)

  datatype Role = UserRole | ModelRole

  /** One chat message; the source wraps the text in a one-element `parts` list. */
  datatype Turn = Turn(role: Role, text: string)

  /** Chat settings; `temperature` is in hundredths (the settings slider moves in steps of 0.01). */
  datatype ChatSettings = ChatSettings(persona: string, tone: string, temperature: nat)

  datatype AppState = AppState(
    view: View,
    user: Option<User>,
    credits: nat,
    savedPrompts: seq<SavedPrompt>,
    chatHistory: seq<Turn>,
    handOff: Option<string>,      // promptForCodeBuilder
    chatSettings: ChatSettings)

  /** Credits granted on a login that finds an empty balance. */
  const StarterCredits: nat := 20

  const DefaultChatSettings := ChatSettings("Helpful Assistant", "Neutral", 70)

  /** The state `App` starts with before anything is restored. */
  const Initial := AppState(Landing, None, 0, [], [], None, DefaultChatSettings)

  /** `navigateTo`: only the current view changes. */
  function NavigateTo(s: AppState, v: View): (r: AppState)
    ensures r.view == v
    ensures r.(view := s.view) == s
  {
    s.(view := v)
  }

  /** `login`: the user is set, the dashboard shown, and an empty balance
      topped up to the starter grant; a positive balance is kept. */
  function Login(s: AppState, u: User): (r: AppState)
    ensures r.user == Some(u) && r.view == Dashboard
    ensures s.credits > 0 ==> r.credits == s.credits
    ensures s.credits == 0 ==> r.credits == StarterCredits
    ensures r.credits > 0
    ensures r.(view := s.view, user := s.user, credits := s.credits) == s
  {
    s.(user := Some(u), credits := if s.credits > 0 then s.credits else StarterCredits, view := Dashboard)
  }

  /** `logout`: session and chat history are cleared and the landing page
      shown; credits, saved prompts, settings and the hand-off survive. */
  function Logout(s: AppState): (r: AppState)
    ensures r.user == None && r.view == Landing && r.chatHistory == []
    ensures r.credits == s.credits && r.savedPrompts == s.savedPrompts
    ensures r.chatSettings == s.chatSettings && r.handOff == s.handOff
  {
    s.(user := None, view := Landing, chatHistory := [])
  }

  /** `addCredits`: an unconditional increase (used by the store's purchase buttons). */
  function AddCredits(s: AppState, amount: nat): (r: AppState)
    ensures r.credits == s.credits + amount
    ensures r.(credits := s.credits) == s
  {
    s.(credits := s.credits + amount)
  }

  /** Result of `deductCredits`: whether it succeeded, and the state after it. */
  datatype Deduction = Deduction(ok: bool, after: AppState)

  /** `deductCredits`: the single spend gate. It succeeds exactly when the
      balance covers the amount; a refused deduction changes nothing. */
  function DeductCredits(s: AppState, amount: nat): (r: Deduction)
    ensures r.ok <==> amount <= s.credits
    ensures r.ok ==> r.after.credits + amount == s.credits
    ensures !r.ok ==> r.after == s
    ensures r.after.(credits := s.credits) == s
  {
    if s.credits < amount then Deduction(false, s)
    else Deduction(true, s.(credits := s.credits - amount))
  }

  /** `checkCredits`: the coarse "can afford anything" probe. */
  function CheckCredits(s: AppState): (r: bool)
    ensures r <==> s.credits != 0
  {
    s.credits > 0
  }

  /** The record `savePrompt` builds for a given clock reading. */
  function NewPrompt(id: string, timestamp: string, title: string, prompt: string): SavedPrompt {
    SavedPrompt(id, title, prompt, timestamp)
  }

  /** `savePrompt`: exactly one new record goes to the front; the old list follows unchanged. */
  function SavePrompt(s: AppState, id: string, timestamp: string, title: string, prompt: string): (r: AppState)
    ensures |r.savedPrompts| == |s.savedPrompts| + 1
    ensures r.savedPrompts[0].title == title && r.savedPrompts[0].prompt == prompt
    ensures r.savedPrompts[0].id == id && r.savedPrompts[0].timestamp == timestamp
    ensures r.savedPrompts[1..] == s.savedPrompts
    ensures r.(savedPrompts := s.savedPrompts) == s
  {
    s.(savedPrompts := [NewPrompt(id, timestamp, title, prompt)] + s.savedPrompts)
  }

  /** Number of records in `ps` carrying `id`. */
  function CountId(ps: seq<SavedPrompt>, id: string): (n: nat)
    ensures n <= |ps|
  {
    if ps == [] then 0 else (if ps[0].id == id then 1 else 0) + CountId(ps[1..], id)
  }

  /** `savedPrompts.filter(p => p.id !== id)`. */
  function RemoveId(ps: seq<SavedPrompt>, id: string): (r: seq<SavedPrompt>)
    ensures |r| + CountId(ps, id) == |ps|
    ensures forall p :: p in r <==> p in ps && p.id != id
  {
    if ps == [] then []
    else if ps[0].id == id then RemoveId(ps[1..], id)
    else [ps[0]] + RemoveId(ps[1..], id)
  }

  /** `deletePrompt`: removes every record with that id and touches nothing else. */
  function DeletePrompt(s: AppState, id: string): (r: AppState)
    ensures forall p :: p in r.savedPrompts <==> p in s.savedPrompts && p.id != id
    ensures |r.savedPrompts| + CountId(s.savedPrompts, id) == |s.savedPrompts|
    ensures r.(savedPrompts := s.savedPrompts) == s
  {
    s.(savedPrompts := RemoveId(s.savedPrompts, id))
  }

  /** `setChatHistory` given a value. */
  function ReplaceHistory(s: AppState, h: seq<Turn>): (r: AppState)
    ensures r.chatHistory == h
    ensures r.(chatHistory := s.chatHistory) == s
  {
    s.(chatHistory := h)
  }

  /** `setChatHistory` given an updater: the new history is computed from the
      history current at the moment of the update. */
  function UpdateHistory(s: AppState, f: seq<Turn> -> seq<Turn>): (r: AppState)
    ensures r.chatHistory == f(s.chatHistory)
    ensures r.(chatHistory := s.chatHistory) == s
  {
    s.(chatHistory := f(s.chatHistory))
  }

  /** `setPromptForCodeBuilder`. */
  function SetHandOff(s: AppState, text: string): (r: AppState)
    ensures r.handOff == Some(text)
    ensures r.(handOff := s.handOff) == s
  {
    s.(handOff := Some(text))
  }

  /** `updateChatSettings`: wholesale replacement (its toast is UI only). */
  function UpdateChatSettings(s: AppState, cs: ChatSettings): (r: AppState)
    ensures r.chatSettings == cs
    ensures r.(chatSettings := s.chatSettings) == s
  {
    s.(chatSettings := cs)
  }

  /** `renderView`: which screen is shown. Without a user only the landing
      page is reachable; with one, the current view is shown, and a view
      the switch does not list (`landing`) falls back to the dashboard. */
  function RenderView(s: AppState): (r: View)
    ensures r == Landing <==> s.user == None
    ensures s.user != None && s.view != Landing ==> r == s.view
    ensures s.user != None && s.view == Landing ==> r == Dashboard
  {
    if s.user.None? then Landing
    else match s.view
      case Dashboard => Dashboard
      case Chat => Chat
      case PromptBuilder => PromptBuilder
      case CodeBuilder => CodeBuilder
      case Generator => Generator
      case History => History
      case Store => Store
      case Landing => Dashboard
  }

  // ---------------------------------------------------------------------
  // Properties relating several operations
  // ---------------------------------------------------------------------

  /** Logging out and back in never resets a positive balance, and never
      touches the saved prompts: login, logout, login keeps the balance the
      first login produced. */
  lemma LoginLogoutLoginKeepsCredits(s: AppState, u1: User, u2: User)
    ensures Login(Logout(Login(s, u1)), u2).credits == Login(s, u1).credits
    ensures Login(Logout(Login(s, u1)), u2).savedPrompts == s.savedPrompts
  {
  }

  /** A purchase is exactly undone by a deduction of the same amount. */
  lemma DeductUndoesAdd(s: AppState, amount: nat)
    ensures DeductCredits(AddCredits(s, amount), amount) == Deduction(true, s)
  {
  }

  /** Two deductions in a row both succeed exactly when the balance covers
      their sum, and then leave the same state as one deduction of the sum. */
  lemma DeductTwice(s: AppState, a: nat, b: nat)
    ensures var first := DeductCredits(s, a);
            (first.ok && DeductCredits(first.after, b).ok) <==> a + b <= s.credits
    ensures var first := DeductCredits(s, a);
            first.ok && DeductCredits(first.after, b).ok ==>
              DeductCredits(first.after, b).after == DeductCredits(s, a + b).after
  {
  }

  /** `checkCredits` is the same test as being able to pay one credit, but
      it does not imply that a five-credit operation can be paid for. */
  lemma CheckCreditsMeansOneCredit(s: AppState)
    ensures CheckCredits(s) <==> DeductCredits(s, 1).ok
    ensures CheckCredits(s) && s.credits < 5 ==> !DeductCredits(s, 5).ok
  {
  }

  /** Saving twice puts the second record before the first, with the
      earlier list behind both. */
  lemma SaveOrder(s: AppState, id1: string, ts1: string, t1: string, p1: string,
                  id2: string, ts2: string, t2: string, p2: string)
    ensures SavePrompt(SavePrompt(s, id1, ts1, t1, p1), id2, ts2, t2, p2).savedPrompts
         == [SavedPrompt(id2, t2, p2, ts2), SavedPrompt(id1, t1, p1, ts1)] + s.savedPrompts
  {
  }

  /** Removal distributes over concatenation: the survivors of each part keep
      their relative order. */
  lemma {:induction false} RemoveIdConcat(a: seq<SavedPrompt>, b: seq<SavedPrompt>, id: string)
    ensures RemoveId(a + b, id) == RemoveId(a, id) + RemoveId(b, id)
  {
    if a == [] {
      assert a + b == b;
    } else {
      assert (a + b)[0] == a[0];
      assert (a + b)[1..] == a[1..] + b;
      RemoveIdConcat(a[1..], b, id);
    }
  }

  /** Deleting an id that no record carries is a no-op. */
  lemma {:induction false} RemoveAbsentId(ps: seq<SavedPrompt>, id: string)
    requires forall p :: p in ps ==> p.id != id
    ensures RemoveId(ps, id) == ps
  {
    if ps != [] {
      assert ps[0] in ps;
      assert forall p :: p in ps[1..] ==> p in ps;
      RemoveAbsentId(ps[1..], id);
      assert ps == [ps[0]] + ps[1..];
    }
  }

  /** Deleting the same id twice is the same as deleting it once. */
  lemma DeleteIdempotent(s: AppState, id: string)
    ensures DeletePrompt(DeletePrompt(s, id), id) == DeletePrompt(s, id)
  {
    RemoveAbsentId(RemoveId(s.savedPrompts, id), id);
  }

  /** Deleting a freshly saved record by its id restores the list, when the
      id was not already in use. */
  lemma DeleteUndoesSave(s: AppState, id: string, ts: string, title: string, prompt: string)
    requires forall p :: p in s.savedPrompts ==> p.id != id
    ensures DeletePrompt(SavePrompt(s, id, ts, title, prompt), id) == s
  {
    var ps := s.savedPrompts;
    assert ([NewPrompt(id, ts, title, prompt)] + ps)[1..] == ps;
    RemoveAbsentId(ps, id);
  }

  /** With unique ids, deleting one saved record leaves exactly one fewer. */
  lemma DeleteOneOfUnique(s: AppState, i: nat)
    requires i < |s.savedPrompts|
    requires forall j, k :: 0 <= j < k < |s.savedPrompts| ==> s.savedPrompts[j].id != s.savedPrompts[k].id
    ensures |DeletePrompt(s, s.savedPrompts[i].id).savedPrompts| == |s.savedPrompts| - 1
  {
    var ps := s.savedPrompts;
    var id := ps[i].id;
    assert ps == ps[..i] + [ps[i]] + ps[i + 1..];
    CountIdConcat(ps[..i] + [ps[i]], ps[i + 1..], id);
    CountIdConcat(ps[..i], [ps[i]], id);
    CountIdAbsent(ps[..i], id);
    CountIdAbsent(ps[i + 1..], id);
  }

  lemma {:induction false} CountIdConcat(a: seq<SavedPrompt>, b: seq<SavedPrompt>, id: string)
    ensures CountId(a + b, id) == CountId(a, id) + CountId(b, id)
  {
    if a == [] {
      assert a + b == b;
    } else {
      assert (a + b)[1..] == a[1..] + b;
      CountIdConcat(a[1..], b, id);
    }
  }

  lemma {:induction false} CountIdAbsent(ps: seq<SavedPrompt>, id: string)
    requires forall j :: 0 <= j < |ps| ==> ps[j].id != id
    ensures CountId(ps, id) == 0
  {
    if ps != [] {
      CountIdAbsent(ps[1..], id);
    }
  }
}
