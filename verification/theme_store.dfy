/** The theme store: one flag, persisted under `web3uni-theme`, mirrored by the
    `dark` class on the document root. */
module ThemeStore {
  import opened DataService

  const PersistKey: string := "web3uni-theme"
  const DarkClass: string := "dark"

  /** The flag, the class list of the document root and browser storage. */
  datatype Theme = Theme(isDark: bool, classes: set<string>, storage: Storage)

  /** The store as created, before storage is read: `isDark` is false. */
  function Created(classes: set<string>, st: Storage): (r: Theme)
    ensures !r.isDark && r.classes == classes && r.storage == st
  {
    Theme(false, classes, st)
  }

  /** The document shows the flag. */
  predicate Synced(t: Theme) {
    (DarkClass in t.classes) == t.isDark
  }

  /** `updateDocumentTheme`: add or remove `dark`, leaving every other class alone. */
  function UpdateDocumentTheme(classes: set<string>, isDark: bool): (r: set<string>)
    ensures (DarkClass in r) == isDark
    ensures r - {DarkClass} == classes - {DarkClass}
  {
    if isDark then classes + {DarkClass} else classes - {DarkClass}
  }

  /** `set({isDark})` under the persist middleware, then `updateDocumentTheme`. */
  function Show(t: Theme, isDark: bool): (r: Theme)
    ensures r.isDark == isDark && Synced(r)
    ensures r.classes - {DarkClass} == t.classes - {DarkClass}
    ensures PersistKey in r.storage && r.storage[PersistKey] == ThemeSlice(isDark)
    ensures r.storage - {PersistKey} == t.storage - {PersistKey}
  {
    Theme(isDark, UpdateDocumentTheme(t.classes, isDark), t.storage[PersistKey := ThemeSlice(isDark)])
  }

  /** `toggleTheme`. */
  function ToggleTheme(t: Theme): (r: Theme)
    ensures r.isDark == !t.isDark && Synced(r)
    ensures r.classes - {DarkClass} == t.classes - {DarkClass}
  {
    Show(t, !t.isDark)
  }

  /** `setTheme(isDark)`. */
  function SetTheme(t: Theme, isDark: bool): (r: Theme)
    ensures r.isDark == isDark && Synced(r)
    ensures r.classes - {DarkClass} == t.classes - {DarkClass}
  {
    Show(t, isDark)
  }

  /** The rehydration hook: the stored flag, if any, replaces the current one, and the
      document is brought in line with the result. */
  function Rehydrate(t: Theme): (r: Theme)
    ensures Synced(r) && r.storage == t.storage
    ensures r.isDark == if PersistKey in t.storage && t.storage[PersistKey].ThemeSlice? then t.storage[PersistKey].dark else t.isDark
    ensures r.classes - {DarkClass} == t.classes - {DarkClass}
  {
    var isDark := if PersistKey in t.storage && t.storage[PersistKey].ThemeSlice? then t.storage[PersistKey].dark else t.isDark;
    Theme(isDark, UpdateDocumentTheme(t.classes, isDark), t.storage)
  }

  /** Toggling twice restores the flag and, from a synced document, the class list;
      it stores what setting the original flag stores. */
  lemma ToggleTwice(t: Theme)
    ensures ToggleTheme(ToggleTheme(t)) == SetTheme(t, t.isDark)
    ensures Synced(t) ==> ToggleTheme(ToggleTheme(t)).classes == t.classes
  {
  }

  /** Setting the same theme twice is setting it once, and setting the current theme
      of a synced document changes neither the flag nor the document. */
  lemma SetThemeIdempotent(t: Theme, isDark: bool)
    ensures SetTheme(SetTheme(t, isDark), isDark) == SetTheme(t, isDark)
    ensures Synced(t) ==> SetTheme(t, t.isDark).classes == t.classes
  {
  }

  /** A reload finds the theme last chosen, whatever the new page's classes are. */
  lemma ReloadRestoresTheme(t: Theme, isDark: bool, classes: set<string>)
    ensures Rehydrate(Created(classes, SetTheme(t, isDark).storage)).isDark == isDark
    ensures Rehydrate(Created(classes, ToggleTheme(t).storage)).isDark == !t.isDark
  {
  }
}
