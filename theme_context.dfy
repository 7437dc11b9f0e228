/** The client's colour theme (client/src/contexts/ThemeContext.js): the reducer, the initial
    theme, the `setTheme` guard, and how the provider's two effects use the stored preference. */
module ThemeContext {
  import opened Wrappers

  datatype ThemeAction = ToggleTheme | SetTheme(payload: string) | OtherAction(kind: string)

  /** `themeReducer`; the state is the theme name alone. SET_THEME stores its payload unchecked. */
  function Reduce(theme: string, a: ThemeAction): (r: string)
    ensures a.ToggleTheme? ==> IsTheme(r) && r != theme
    ensures a.SetTheme? ==> r == a.payload
    ensures a.OtherAction? ==> r == theme
  {
    match a
    case ToggleTheme => if theme == "light" then "dark" else "light"
    case SetTheme(payload) => payload
    case OtherAction(_) => theme
  }

  predicate IsTheme(theme: string) {
    theme == "light" || theme == "dark"
  }

  /** Toggling twice from a known theme is the identity; from anything else it lands on dark. */
  lemma ToggleTwice(theme: string)
    ensures IsTheme(theme) ==> Reduce(Reduce(theme, ToggleTheme), ToggleTheme) == theme
    ensures !IsTheme(theme) ==> Reduce(Reduce(theme, ToggleTheme), ToggleTheme) == "dark"
    ensures IsTheme(Reduce(theme, ToggleTheme)) && Reduce(theme, ToggleTheme) != theme
  {
  }

  lemma OtherActionsIgnored(theme: string, kind: string)
    ensures Reduce(theme, OtherAction(kind)) == theme
  {
  }

  /** A stored value counts only when it is a non-empty string (JavaScript truthiness). */
  predicate Stored(saved: Option<string>) {
    saved.Some? && saved.value != ""
  }

  /** `getInitialTheme`: the stored value, else the system preference. */
  function InitialTheme(saved: Option<string>, prefersDark: bool): (theme: string)
    ensures Stored(saved) ==> theme == saved.value
    ensures !Stored(saved) ==> theme == (if prefersDark then "dark" else "light")
    ensures theme != ""
  {
    if Stored(saved) then saved.value else if prefersDark then "dark" else "light"
  }

  /** `setTheme(t)`: the action dispatched, if any. */
  function SetThemeDispatch(requested: string): (a: Option<ThemeAction>)
    ensures a.Some? <==> IsTheme(requested)
    ensures a.Some? ==> a.value == SetTheme(requested)
  {
    if requested == "light" || requested == "dark" then Some(SetTheme(requested)) else None
  }

  function IsDark(theme: string): bool { theme == "dark" }
  function IsLight(theme: string): bool { theme == "light" }

  lemma NeverBothDarkAndLight(theme: string)
    ensures !(IsDark(theme) && IsLight(theme))
    ensures IsTheme(theme) <==> IsDark(theme) || IsLight(theme)
  {
  }

  /** What reaches the provider: the user's toggle, the user's `setTheme` call, or a change of
      the system's colour-scheme preference. */
  datatype ThemeEvent = UserToggle | UserSet(requested: string) | SystemChange(prefersDark: bool)

  /** The provider's theme together with the stored preference. */
  datatype Provider = Provider(theme: string, saved: Option<string>)

  /** The theme a user event leads to. */
  function UserTheme(theme: string, e: ThemeEvent): (r: string)
    requires !e.SystemChange?
    ensures IsTheme(theme) ==> IsTheme(r)
    ensures theme != "" ==> r != ""
  {
    match e
    case UserToggle => Reduce(theme, ToggleTheme)
    case UserSet(requested) =>
      match SetThemeDispatch(requested)
      case Some(a) => Reduce(theme, a)
      case None => theme
  }

  /** The system listener's action: only when nothing is stored. */
  function SystemTheme(p: Provider, prefersDark: bool): string {
    if !Stored(p.saved) then Reduce(p.theme, SetTheme(if prefersDark then "dark" else "light")) else p.theme
  }

  /** As written, the effect that applies the theme also stores it, on mount and after every
      change. */
  function Mount(saved: Option<string>, prefersDark: bool): (p: Provider)
    ensures p.saved == Some(p.theme)
  {
    var theme := InitialTheme(saved, prefersDark);
    Provider(theme, Some(theme))
  }

  /** One event as written: the theme changes as the event says, and the effect then stores the
      theme shown. */
  function Handle(p: Provider, e: ThemeEvent): (r: Provider)
    ensures r.saved == Some(r.theme)
    ensures !e.SystemChange? ==> r.theme == UserTheme(p.theme, e)
  {
    var theme := if e.SystemChange? then SystemTheme(p, e.prefersDark) else UserTheme(p.theme, e);
    Provider(theme, Some(theme))
  }

  /** A run of events: after at least one, the stored preference is the theme shown. */
  function Run(p: Provider, events: seq<ThemeEvent>): (r: Provider)
    ensures events == [] ==> r == p
    ensures events != [] ==> r.saved == Some(r.theme)
    decreases |events|
  {
    if events == [] then p else Run(Handle(p, events[0]), events[1..])
  }

  /** Once mounted, a preference is always stored, so the system listener never changes the
      theme: the provider does not follow the system even when the user never chose a theme. */
  lemma {:induction false} SystemChangeNeverApplies(p: Provider, events: seq<ThemeEvent>, prefersDark: bool)
    requires p.theme != "" && p.saved == Some(p.theme)
    ensures var q := Run(p, events); Handle(q, SystemChange(prefersDark)).theme == q.theme
    decreases |events|
  {
    if events != [] {
      var e := events[0];
      var next := Handle(p, e);
      assert next.theme != "" by {
        if !e.SystemChange? {
          assert UserTheme(p.theme, e) != "";
        }
      }
      SystemChangeNeverApplies(next, events[1..], prefersDark);
    }
  }

  lemma MountedIgnoresSystem(saved: Option<string>, prefersDark: bool, events: seq<ThemeEvent>, now: bool)
    ensures var q := Run(Mount(saved, prefersDark), events);
            Handle(q, SystemChange(now)).theme == q.theme
  {
    SystemChangeNeverApplies(Mount(saved, prefersDark), events, now);
  }

  /** The evidently intended provider: the preference is stored only when the user picks a
      theme, so the system listener applies until then. */
  function MountCorrected(saved: Option<string>, prefersDark: bool): Provider {
    Provider(InitialTheme(saved, prefersDark), saved)
  }

  function HandleCorrected(p: Provider, e: ThemeEvent): (q: Provider)
    ensures e.SystemChange? ==> q.saved == p.saved
    ensures !e.SystemChange? ==> q.saved == Some(q.theme)
  {
    if e.SystemChange? then Provider(SystemTheme(p, e.prefersDark), p.saved)
    else var theme := UserTheme(p.theme, e); Provider(theme, Some(theme))
  }

  function RunCorrected(p: Provider, events: seq<ThemeEvent>): Provider
    decreases |events|
  {
    if events == [] then p else RunCorrected(HandleCorrected(p, events[0]), events[1..])
  }

  predicate OnlySystemEvents(events: seq<ThemeEvent>) {
    forall i :: 0 <= i < |events| ==> events[i].SystemChange?
  }

  lemma {:induction false} SystemEventsKeepStorage(p: Provider, events: seq<ThemeEvent>)
    requires OnlySystemEvents(events)
    ensures RunCorrected(p, events).saved == p.saved
    decreases |events|
  {
    if events != [] {
      assert events[0].SystemChange?;
      assert OnlySystemEvents(events[1..]) by {
        forall i | 0 <= i < |events[1..]| ensures events[1..][i].SystemChange? {
          assert events[1..][i] == events[i + 1];
        }
      }
      SystemEventsKeepStorage(HandleCorrected(p, events[0]), events[1..]);
    }
  }

  /** With nothing stored and no choice made by the user, every system change is followed. */
  lemma CorrectedFollowsSystem(saved: Option<string>, prefersDark: bool, events: seq<ThemeEvent>, now: bool)
    requires !Stored(saved) && OnlySystemEvents(events)
    ensures var q := RunCorrected(MountCorrected(saved, prefersDark), events);
            HandleCorrected(q, SystemChange(now)).theme == (if now then "dark" else "light")
  {
    SystemEventsKeepStorage(MountCorrected(saved, prefersDark), events);
  }

  /** After a choice by the user, the corrected provider stores it and ignores the system. */
  lemma CorrectedKeepsUserChoice(p: Provider, e: ThemeEvent, now: bool)
    requires !e.SystemChange? && p.theme != ""
    ensures var q := HandleCorrected(p, e);
            Stored(q.saved) && HandleCorrected(q, SystemChange(now)) == q
  {
  }
}
