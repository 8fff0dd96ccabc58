/** Colour themes: four predefined palettes, an optional custom one, and
    the manager that selects the current theme and keeps the choice in a
    preference file. */
module Themes {
  import opened Common

  /** A theme: its display name and its colours. */
  datatype Theme = Theme(
    name: string,
    primary: string, primaryHover: string, primaryText: string,
    accent: string, accentHover: string, accentText: string,
    headerBg: string, headerText: string, footerBg: string, footerText: string,
    sidebarBg: string, sidebarText: string, sidebarSelectedBg: string, sidebarSelectedText: string, sidebarHoverBg: string,
    contentBg: string, contentAltBg: string, text: string, textMuted: string, border: string,
    success: string, warning: string, error: string,
    inputBg: string, inputBorder: string, inputFocusBorder: string)

  const Blue: Theme := Theme(
    "Blue",
    "#2563eb", "#1d4ed8", "#ffffff",
    "#f97316", "#ea580c", "#ffffff",
    "#1f2937", "#ffffff", "#1f2937", "#ffffff",
    "#f3f4f6", "#374151", "#dbeafe", "#1e40af", "#e5e7eb",
    "#ffffff", "#f9fafb", "#111827", "#6b7280", "#d1d5db",
    "#22c55e", "#f59e0b", "#ef4444",
    "#ffffff", "#d1d5db", "#2563eb")

  const Red: Theme := Theme(
    "Red",
    "#dc2626", "#b91c1c", "#ffffff",
    "#ea580c", "#c2410c", "#ffffff",
    "#1f2937", "#ffffff", "#1f2937", "#ffffff",
    "#fef2f2", "#374151", "#fecaca", "#991b1b", "#fee2e2",
    "#ffffff", "#fef2f2", "#111827", "#6b7280", "#d1d5db",
    "#22c55e", "#f59e0b", "#ef4444",
    "#ffffff", "#d1d5db", "#dc2626")

  const Green: Theme := Theme(
    "Green",
    "#16a34a", "#15803d", "#ffffff",
    "#0d9488", "#0f766e", "#ffffff",
    "#1f2937", "#ffffff", "#1f2937", "#ffffff",
    "#f0fdf4", "#374151", "#bbf7d0", "#166534", "#dcfce7",
    "#ffffff", "#f0fdf4", "#111827", "#6b7280", "#d1d5db",
    "#22c55e", "#f59e0b", "#ef4444",
    "#ffffff", "#d1d5db", "#16a34a")

  const Mono: Theme := Theme(
    "Mono",
    "#18181b", "#27272a", "#ffffff",
    "#52525b", "#3f3f46", "#ffffff",
    "#18181b", "#ffffff", "#18181b", "#ffffff",
    "#f4f4f5", "#27272a", "#e4e4e7", "#18181b", "#e4e4e7",
    "#ffffff", "#fafafa", "#18181b", "#71717a", "#d4d4d8",
    "#22c55e", "#f59e0b", "#ef4444",
    "#ffffff", "#d4d4d8", "#18181b")

  /** The keys of `THEMES`, in order. */
  const PredefinedIds: seq<string> := ["blue", "red", "green", "mono"]

  /** `THEMES.get(id)`. */
  function Predefined(id: string): Option<Theme> {
    if id == "blue" then Some(Blue)
    else if id == "red" then Some(Red)
    else if id == "green" then Some(Green)
    else if id == "mono" then Some(Mono)
    else None
  }

  /** The predefined themes are exactly the listed keys, each with its own
      palette. */
  lemma PredefinedKeys(id: string)
    ensures Predefined(id).Some? <==> id in PredefinedIds
    ensures NoDup(PredefinedIds)
    ensures Blue != Red && Blue != Green && Blue != Mono && Red != Green && Red != Mono && Green != Mono
  {
    assert Blue.name[0] != Red.name[0] && Blue.name[0] != Green.name[0] && Blue.name[0] != Mono.name[0];
    assert Red.name[0] != Green.name[0] && Red.name[0] != Mono.name[0] && Green.name[0] != Mono.name[0];
    assert "blue"[0] != "red"[0] && "blue"[0] != "green"[0] && "blue"[0] != "mono"[0];
    assert "red"[0] != "green"[0] && "red"[0] != "mono"[0] && "green"[0] != "mono"[0];
  }

  // ---------------------------------------------------------------------------
  // The preference file
  // ---------------------------------------------------------------------------

  /** The `custom_theme` value of the file: keyword arguments `Theme` takes,
      or ones it rejects (missing or unknown keys raise TypeError). */
  datatype CustomThemeJson = ThemeFields(theme: Theme) | BadThemeFields

  /** theme.json: an object with an optional `theme_id` and an optional
      `custom_theme`, or text that does not decode. */
  datatype PrefDoc = PrefObject(themeId: Option<string>, customTheme: Option<CustomThemeJson>) | NotJson

  /** `_save_theme_preference`: the id, and the custom theme when there is one. */
  function Encode(themeId: string, custom: Option<Theme>): PrefDoc {
    PrefObject(Some(themeId), if custom.Some? then Some(ThemeFields(custom.value)) else None)
  }

  /** `_load_theme_preference` on the state `(themeId, custom)`: the id
      defaults to "blue"; a custom theme replaces the current one; a file
      that does not decode, or a custom theme `Theme` rejects, resets the id
      to "blue" and keeps the custom theme. No file changes nothing. */
  function Loaded(file: Option<PrefDoc>, themeId: string, custom: Option<Theme>): (r: (string, Option<Theme>))
  {
    match file
    case None => (themeId, custom)
    case Some(NotJson) => ("blue", custom)
    case Some(PrefObject(id, ct)) =>
      match ct
      case None => (id.GetOr("blue"), custom)
      case Some(ThemeFields(t)) => (id.GetOr("blue"), Some(t))
      case Some(BadThemeFields) => ("blue", custom)
  }

  /** Loading what was saved gives back the saved choice, from any state. */
  lemma PreferenceRoundTrip(themeId: string, custom: Option<Theme>, id0: string, custom0: Option<Theme>)
    ensures custom.Some? ==> Loaded(Some(Encode(themeId, custom)), id0, custom0) == (themeId, custom)
    ensures custom.None? ==> Loaded(Some(Encode(themeId, custom)), id0, custom0) == (themeId, custom0)
  {
  }

  /** A damaged file never leaves an id other than "blue" or the file's own. */
  lemma LoadedIdOrigin(file: PrefDoc, id0: string, custom0: Option<Theme>)
    ensures var id := Loaded(Some(file), id0, custom0).0;
      id == "blue" || (file.PrefObject? && file.themeId == Some(id))
  {
  }

  // ---------------------------------------------------------------------------
  // The manager
  // ---------------------------------------------------------------------------

  /** `ThemeManager`: the current theme id, the custom theme if any, and the
      preference file (None while it does not exist). */
  class ThemeManager {
    var currentThemeId: string
    var customTheme: Option<Theme>
    var file: Option<PrefDoc>

    /** `__init__`: "blue" and no custom theme, then the saved preference. */
    constructor (file: Option<PrefDoc>)
      ensures (currentThemeId, customTheme) == Loaded(file, "blue", None)
      ensures this.file == file
      ensures file.None? ==> currentThemeId == "blue" && customTheme.None?
    {
      currentThemeId := "blue";
      customTheme := None;
      this.file := file;
      new;
      LoadPreference();
    }

    /** `_load_theme_preference`. */
    method LoadPreference()
      modifies this`currentThemeId, this`customTheme
      ensures (currentThemeId, customTheme) == Loaded(file, old(currentThemeId), old(customTheme))
    {
      if file.None? {
        return;
      }
      match file.value
      case NotJson =>
        currentThemeId := "blue";
      case PrefObject(id, ct) =>
        currentThemeId := id.GetOr("blue");
        match ct
        case None =>
        case Some(ThemeFields(t)) =>
          customTheme := Some(t);
        case Some(BadThemeFields) =>
          currentThemeId := "blue";
    }

    /** `_save_theme_preference`. */
    method Save()
      modifies this`file
      ensures file == Some(Encode(currentThemeId, customTheme))
    {
      file := Some(Encode(currentThemeId, customTheme));
    }

    /** `current_theme`: the custom theme when chosen and defined, else the
        predefined theme of the id, else blue. */
    function CurrentTheme(): (t: Theme)
      reads this
      ensures currentThemeId == "custom" && customTheme.Some? ==> t == customTheme.value
      ensures !(currentThemeId == "custom" && customTheme.Some?) && Predefined(currentThemeId).Some? ==>
        t == Predefined(currentThemeId).value
      ensures !(currentThemeId == "custom" && customTheme.Some?) && Predefined(currentThemeId).None? ==> t == Blue
    {
      if currentThemeId == "custom" && customTheme.Some? then customTheme.value
      else Predefined(currentThemeId).GetOr(Blue)
    }

    /** `available_themes`: the predefined ids, then "custom". */
    function AvailableThemes(): (r: seq<string>)
      ensures |r| == |PredefinedIds| + 1 && r[|r| - 1] == "custom" && r[..|PredefinedIds|] == PredefinedIds
    {
      PredefinedIds + ["custom"]
    }

    /** `set_theme`: a predefined id, or "custom" while a custom theme is
        defined, becomes current and is saved; any other id changes nothing. */
    method SetTheme(themeId: string)
      modifies this`currentThemeId, this`file
      ensures Predefined(themeId).Some? || (themeId == "custom" && customTheme.Some?) ==>
        currentThemeId == themeId && file == Some(Encode(themeId, customTheme))
      ensures Predefined(themeId).Some? ==> CurrentTheme() == Predefined(themeId).value
      ensures themeId == "custom" && customTheme.Some? ==> CurrentTheme() == customTheme.value
      ensures !(Predefined(themeId).Some? || (themeId == "custom" && customTheme.Some?)) ==>
        currentThemeId == old(currentThemeId) && file == old(file)
    {
      if Predefined(themeId).Some? || (themeId == "custom" && customTheme.Some?) {
        currentThemeId := themeId;
        Save();
      }
    }

    /** `set_custom_theme`: the theme is stored, chosen and saved. */
    method SetCustomTheme(t: Theme)
      modifies this`customTheme, this`currentThemeId, this`file
      ensures customTheme == Some(t) && currentThemeId == "custom"
      ensures file == Some(Encode("custom", Some(t)))
      ensures CurrentTheme() == t
    {
      customTheme := Some(t);
      currentThemeId := "custom";
      Save();
    }
  }

  /** The current theme is always the custom theme or one of the four. */
  lemma CurrentThemeIsKnown(m: ThemeManager)
    ensures m.CurrentTheme() in [Blue, Red, Green, Mono] || Some(m.CurrentTheme()) == m.customTheme
  {
  }

  /** Every id `set_theme` accepts is offered by `available_themes`, and each
      offered predefined id shows its own theme once chosen. */
  lemma AcceptedIdsAreAvailable(m: ThemeManager, themeId: string)
    ensures Predefined(themeId).Some? || (themeId == "custom" && m.customTheme.Some?) ==> themeId in m.AvailableThemes()
    ensures forall id :: id in PredefinedIds ==> Predefined(id).Some?
  {
    PredefinedKeys(themeId);
  }
}
