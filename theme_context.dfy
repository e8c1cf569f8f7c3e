/** The theme context of the single-page frontend
    (`src/context/ThemeContext.tsx`): the theme the user chose, the scheme the
    operating system reports, and the scheme in effect. Local storage and the
    media query are not modelled: their values are parameters. */
module ThemeContext {

  /** A colour scheme: `'light' | 'dark'`. */
  datatype Scheme = Light | Dark

  /** `Theme`: a fixed scheme, or `'system'` to follow the operating system. */
  datatype Theme = Fixed(scheme: Scheme) | System

  /** `ThemeState`. */
  datatype ThemeState = ThemeState(theme: Theme, systemTheme: Scheme, effectiveTheme: Scheme)

  /** The two action types, and `Other` for an action of any other type. */
  datatype ThemeAction = SetTheme(theme: Theme) | SetSystemTheme(scheme: Scheme) | Other

  /** The other scheme. */
  function Opposite(s: Scheme): (o: Scheme)
    ensures o != s
  {
    if s == Light then Dark else Light
  }

  /** `calculateEffectiveTheme`: the operating system's scheme when the theme
      is `'system'`, the theme's own scheme otherwise. */
  function EffectiveTheme(theme: Theme, systemTheme: Scheme): (e: Scheme)
    ensures theme == System ==> e == systemTheme
    ensures theme.Fixed? ==> e == theme.scheme
  {
    match theme
    case System => systemTheme
    case Fixed(scheme) => scheme
  }

  /** The state's effective scheme is the one its theme and the system scheme
      determine. */
  predicate Consistent(s: ThemeState)
  {
    s.effectiveTheme == EffectiveTheme(s.theme, s.systemTheme)
  }

  /** `initialState`, from the stored theme and the system scheme. */
  function InitialState(storedTheme: Theme, systemTheme: Scheme): (s: ThemeState)
    ensures s.theme == storedTheme && s.systemTheme == systemTheme
    ensures Consistent(s)
  {
    ThemeState(storedTheme, systemTheme, EffectiveTheme(storedTheme, systemTheme))
  }

  /** `themeReducer`. */
  function Reduce(s: ThemeState, a: ThemeAction): ThemeState
  {
    match a
    case SetTheme(theme) =>
      s.(theme := theme, effectiveTheme := EffectiveTheme(theme, s.systemTheme))
    case SetSystemTheme(scheme) =>
      s.(systemTheme := scheme, effectiveTheme := EffectiveTheme(s.theme, scheme))
    case Other =>
      s
  }

  /** Both actions re-establish the consistency of the effective scheme, and
      any other action keeps it. */
  lemma ReduceKeepsConsistent(s: ThemeState, a: ThemeAction)
    requires a.Other? ==> Consistent(s)
    ensures Consistent(Reduce(s, a))
  {
  }

  /** `SET_THEME` installs the theme and keeps the system scheme. */
  lemma SetThemeKeepsSystemTheme(s: ThemeState, theme: Theme)
    ensures Reduce(s, SetTheme(theme)).theme == theme
    ensures Reduce(s, SetTheme(theme)).systemTheme == s.systemTheme
  {
  }

  /** `SET_SYSTEM_THEME` keeps the theme; under a fixed theme the effective
      scheme does not change either, and under `'system'` it follows. */
  lemma SetSystemThemeKeepsTheme(s: ThemeState, scheme: Scheme)
    requires Consistent(s)
    ensures var r := Reduce(s, SetSystemTheme(scheme));
      && r.theme == s.theme && r.systemTheme == scheme
      && (s.theme.Fixed? ==> r.effectiveTheme == s.effectiveTheme)
      && (s.theme == System ==> r.effectiveTheme == scheme)
  {
  }

  /** An action of any other type changes nothing. */
  lemma OtherActionIsIgnored(s: ThemeState)
    ensures Reduce(s, Other) == s
  {
  }

  /** The theme `toggleTheme` sets: the fixed scheme opposite to the one in
      effect. */
  function ToggledTheme(s: ThemeState): (t: Theme)
    ensures t != System
  {
    Fixed(Opposite(s.effectiveTheme))
  }

  /** Toggling always flips the effective scheme and leaves a fixed theme;
      toggling twice from a consistent state restores the effective scheme. */
  lemma ToggleFlipsEffectiveTheme(s: ThemeState)
    requires Consistent(s)
    ensures var r := Reduce(s, SetTheme(ToggledTheme(s)));
      && r.effectiveTheme == Opposite(s.effectiveTheme)
      && r.theme.Fixed?
      && Consistent(r)
      && Reduce(r, SetTheme(ToggledTheme(r))).effectiveTheme == s.effectiveTheme
  {
  }

  /** The provider: the reducer state React holds, and the operations it
      offers. */
  class ThemeProvider {
    var state: ThemeState

    /** `useReducer(themeReducer, initialState)`. */
    constructor (storedTheme: Theme, systemTheme: Scheme)
      ensures state == InitialState(storedTheme, systemTheme)
      ensures Consistent(state)
    {
      state := InitialState(storedTheme, systemTheme);
    }

    /** `setTheme` (the write to local storage is not modelled). */
    method SetThemeTo(theme: Theme)
      modifies this
      ensures state == Reduce(old(state), SetTheme(theme))
      ensures Consistent(state)
    {
      ReduceKeepsConsistent(state, SetTheme(theme));
      state := Reduce(state, SetTheme(theme));
    }

    /** `toggleTheme`: sets the fixed theme opposite to the effective one. */
    method ToggleTheme()
      modifies this
      ensures state == Reduce(old(state), SetTheme(ToggledTheme(old(state))))
      ensures state.effectiveTheme == Opposite(old(state).effectiveTheme)
      ensures state.theme != System
      ensures Consistent(state)
    {
      SetThemeTo(ToggledTheme(state));
    }

    /** The media-query listener: the operating system switched scheme. */
    method SystemSchemeChanged(dark: bool)
      modifies this
      ensures state == Reduce(old(state), SetSystemTheme(if dark then Dark else Light))
      ensures Consistent(state)
    {
      ReduceKeepsConsistent(state, SetSystemTheme(if dark then Dark else Light));
      state := Reduce(state, SetSystemTheme(if dark then Dark else Light));
    }
  }
}
