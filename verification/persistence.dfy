/** Mirroring the store to browser storage and restoring it at start-up.
    The stored record is an abstract snapshot rather than JSON text. */
module Persistence {
  import opened State

  /** What `serializableState` holds: every field but the hand-off. The
      settings are optional because records written by older versions
      may lack them. */
  datatype Snapshot = Snapshot(
    view: View,
    user: Option<User>,
    credits: nat,
    savedPrompts: seq<SavedPrompt>,
    chatHistory: seq<Turn>,
    chatSettings: Option<ChatSettings>)

  /** The storage slot under the app's key: empty, unparseable, or a record. */
  datatype Stored = Absent | Corrupt | Saved(snapshot: Snapshot)

  /** The save effect: a snapshot of everything except the hand-off field. */
  function Serialize(s: AppState): (r: Snapshot)
    ensures r.user == s.user && r.credits == s.credits && r.view == s.view
    ensures r.savedPrompts == s.savedPrompts && r.chatHistory == s.chatHistory
    ensures r.chatSettings == Some(s.chatSettings)
  {
    Snapshot(s.view, s.user, s.credits, s.savedPrompts, s.chatHistory, Some(s.chatSettings))
  }

  /** The storage slot after the save effect has run for state `s`. */
  function Mirror(s: AppState): Stored {
    Saved(Serialize(s))
  }

  /** State and storage slot after the start-up load effect. The slot is
      the one between the two mount-time effects: the save effect runs next
      and overwrites it, so after start-up the slot is `Mirror(state)`. */
  datatype Loaded = Loaded(state: AppState, stored: Stored)

  /** The load effect. A record with a user is restored onto the dashboard
      with no hand-off and with default settings when none were stored; a
      record without a user leaves the initial state; an unparseable record
      is removed and the initial state kept. */
  function Load(stored: Stored): (r: Loaded)
    ensures r.state.handOff == None
    ensures stored.Corrupt? ==> r == Loaded(Initial, Absent)
    ensures !stored.Corrupt? ==> r.stored == stored
    ensures r.state.user == None <==> r.state == Initial
    ensures r.state.user != None ==>
              && stored.Saved? && r.state.user == stored.snapshot.user
              && r.state.view == Dashboard
              && r.state.credits == stored.snapshot.credits
              && r.state.savedPrompts == stored.snapshot.savedPrompts
              && r.state.chatHistory == stored.snapshot.chatHistory
    ensures stored.Saved? && stored.snapshot.user != None ==> r.state.user != None
    ensures stored.Saved? && stored.snapshot.user != None ==>
              r.state.chatSettings == match stored.snapshot.chatSettings
                                      case Some(cs) => cs
                                      case None => DefaultChatSettings
  {
    match stored
    case Absent => Loaded(Initial, Absent)
    case Corrupt => Loaded(Initial, Absent)
    case Saved(snap) =>
      if snap.user.None? then Loaded(Initial, stored)
      else
        var settings := match snap.chatSettings case Some(cs) => cs case None => DefaultChatSettings;
        Loaded(AppState(Dashboard, snap.user, snap.credits, snap.savedPrompts, snap.chatHistory, None, settings), stored)
  }

  /** The hand-off field never reaches storage. */
  lemma SerializeIgnoresHandOff(s: AppState, h: Option<string>)
    ensures Serialize(s.(handOff := h)) == Serialize(s)
  {
  }

  /** Saving then reloading a signed-in state gives back the session,
      credits, saved prompts, chat history and settings unchanged, on the
      dashboard and without a hand-off. */
  lemma RoundTripSignedIn(s: AppState)
    requires s.user != None
    ensures Load(Mirror(s)).state == s.(view := Dashboard, handOff := None)
  {
  }

  /** Saving then reloading a signed-out state gives the initial state. */
  lemma RoundTripSignedOut(s: AppState)
    requires s.user == None
    ensures Load(Mirror(s)).state == Initial
  {
  }

  /** Logging out and then reloading the page starts over. The stored record
      has no user, so start-up ignores it and the save effect overwrites it
      with the initial state; the next login then grants the starter credits
      to an empty prompt list, whatever balance and prompts there were. */
  lemma LogoutReloadLoginStartsOver(s: AppState, u: User)
    ensures Load(Mirror(Logout(s))).state == Initial
    ensures var next := Login(Load(Mirror(Logout(s))).state, u);
            && next.credits == StarterCredits
            && next.savedPrompts == []
            && next.chatSettings == DefaultChatSettings
  {
  }

  /** Reloading is stable: once restored, saving and reloading again
      changes nothing. */
  lemma ReloadIsStable(stored: Stored)
    ensures Load(Mirror(Load(stored).state)).state == Load(stored).state
  {
    var s := Load(stored).state;
    if s.user != None {
      RoundTripSignedIn(s);
    } else {
      RoundTripSignedOut(s);
    }
  }
}
