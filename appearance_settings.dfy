/**
 * src/components/admin/AppearanceSettings.tsx: the theme and layout records and their
 * handlers.
 *
 * The two `useLocalStorage` slots become the fields `theme` and `layout` of
 * `AppearancePanel`. The numeric inputs store whatever `parseInt` gives, `NaN` included,
 * so those members are `JsValue`s.
 */
module AppearanceSettings {
  import opened Js
  import UseApi

  datatype Theme = Theme(primaryColor: string, secondaryColor: string, backgroundColor: string,
                         textColor: string, borderRadius: JsValue, fontSize: JsValue,
                         darkMode: bool, compactMode: bool)

  datatype Layout = Layout(showSidebar: bool, sidebarWidth: JsValue, showToolbar: bool,
                           showStatusBar: bool, showLineNumbers: bool, wordWrap: bool)

  const DEFAULT_THEME: Theme :=
    Theme("#3b82f6", "#64748b", "#ffffff", "#1f2937", Num(6), Num(14), false, false)

  const DEFAULT_LAYOUT: Layout := Layout(true, Num(250), true, true, true, true)

  datatype Preset = Preset(name: string, primary: string, secondary: string)

  const COLOR_PRESETS: seq<Preset> := [
    Preset("Синий", "#3b82f6", "#64748b"),
    Preset("Зеленый", "#10b981", "#6b7280"),
    Preset("Фиолетовый", "#8b5cf6", "#6b7280"),
    Preset("Розовый", "#ec4899", "#6b7280"),
    Preset("Оранжевый", "#f59e0b", "#6b7280")
  ]

  /** One theme input's `onChange`; the numeric ones carry the input's raw text. */
  datatype ThemeEdit =
    | PrimaryColor(color: string)
    | SecondaryColor(color: string)
    | FontSize(input: string)
    | BorderRadius(input: string)
    | DarkMode(on: bool)
    | CompactMode(on: bool)

  /** One layout input's `onChange`. */
  datatype LayoutEdit =
    | ShowSidebar(on: bool)
    | SidebarWidth(input: string)
    | ShowToolbar(on: bool)
    | ShowStatusBar(on: bool)
    | ShowLineNumbers(on: bool)
    | WordWrap(on: bool)

  /** `{ ...prev, [member]: value }` for a theme input. */
  function EditTheme(t: Theme, e: ThemeEdit): Theme
  {
    match e
    case PrimaryColor(c) => t.(primaryColor := c)
    case SecondaryColor(c) => t.(secondaryColor := c)
    case FontSize(s) => t.(fontSize := ParseInt(s))
    case BorderRadius(s) => t.(borderRadius := ParseInt(s))
    case DarkMode(b) => t.(darkMode := b)
    case CompactMode(b) => t.(compactMode := b)
  }

  function EditLayout(l: Layout, e: LayoutEdit): Layout
  {
    match e
    case ShowSidebar(b) => l.(showSidebar := b)
    case SidebarWidth(s) => l.(sidebarWidth := ParseInt(s))
    case ShowToolbar(b) => l.(showToolbar := b)
    case ShowStatusBar(b) => l.(showStatusBar := b)
    case ShowLineNumbers(b) => l.(showLineNumbers := b)
    case WordWrap(b) => l.(wordWrap := b)
  }

  /** `{ ...prev, primaryColor: preset.primary, secondaryColor: preset.secondary }`. */
  function WithPreset(t: Theme, p: Preset): Theme
  {
    t.(primaryColor := p.primary, secondaryColor := p.secondary)
  }

  /** A preset sets the two colours to its own and leaves the other six members as they were. */
  lemma PresetChangesOnlyColors(t: Theme, p: Preset)
    ensures WithPreset(t, p).primaryColor == p.primary && WithPreset(t, p).secondaryColor == p.secondary
    ensures WithPreset(t, p).(primaryColor := t.primaryColor, secondaryColor := t.secondaryColor) == t
    ensures WithPreset(WithPreset(t, p), p) == WithPreset(t, p)
  {
  }

  /**
   * The numeric inputs are not held to their `min`/`max` attributes: any integer typed
   * is stored as is.
   */
  lemma TypedNumbersStored(t: Theme, l: Layout, n: int)
    ensures EditTheme(t, FontSize(ShowInt(n))).fontSize == Num(n)
    ensures EditTheme(t, BorderRadius(ShowInt(n))).borderRadius == Num(n)
    ensures EditLayout(l, SidebarWidth(ShowInt(n))).sidebarWidth == Num(n)
  {
    ParseIntShowInt(n);
  }

  /** Text without a digit is not refused either: the member becomes `NaN`. */
  lemma TextStoresNaN(t: Theme, l: Layout, text: string)
    requires forall i :: 0 <= i < |text| ==> !IsDecimalDigit(text[i])
    ensures EditTheme(t, FontSize(text)).fontSize == NaN
    ensures EditTheme(t, BorderRadius(text)).borderRadius == NaN
    ensures EditLayout(l, SidebarWidth(text)).sidebarWidth == NaN
  {
    ParseIntNoDigits(text);
  }

  /** What `handleExportTheme` serialises. */
  datatype ExportData = ExportData(theme: Theme, layout: Layout)

  class AppearancePanel {
    var theme: Theme
    var layout: Layout
    var toasts: seq<UseApi.Toast>

    constructor (theme0: Theme, layout0: Layout)
      ensures theme == theme0 && layout == layout0 && toasts == []
    {
      theme := theme0;
      layout := layout0;
      toasts := [];
    }

    /** A theme input changed: that member takes the new value, the layout is untouched. */
    method OnThemeInput(e: ThemeEdit)
      modifies this
      ensures theme == EditTheme(old(theme), e)
      ensures layout == old(layout) && toasts == old(toasts)
    {
      theme := EditTheme(theme, e);
    }

    /** A layout input changed: that member takes the new value, the theme is untouched. */
    method OnLayoutInput(e: LayoutEdit)
      modifies this
      ensures layout == EditLayout(old(layout), e)
      ensures theme == old(theme) && toasts == old(toasts)
    {
      layout := EditLayout(layout, e);
    }

    /** `handleApplyPreset(preset)`. */
    method HandleApplyPreset(p: Preset)
      modifies this
      ensures theme == WithPreset(old(theme), p)
      ensures layout == old(layout) && |toasts| == |old(toasts)| + 1
    {
      theme := WithPreset(theme, p);
      toasts := toasts + [UseApi.Toast("Пресет применен", "Цветовая схема \"" + p.name + "\" применена", false)];
    }

    /**
     * `handleResetTheme()`: the theme becomes exactly the initial one, whatever it was, so
     * a second reset changes nothing; the layout is untouched.
     */
    method HandleResetTheme()
      modifies this
      ensures theme == DEFAULT_THEME
      ensures layout == old(layout) && |toasts| == |old(toasts)| + 1
    {
      theme := DEFAULT_THEME;
      toasts := toasts + [UseApi.Toast("Тема сброшена", "Настройки темы возвращены к значениям по умолчанию", false)];
    }

    /** `handleExportTheme()`: the object serialised holds the current theme and layout and nothing else. */
    method HandleExportTheme() returns (data: ExportData)
      modifies this
      ensures data == ExportData(old(theme), old(layout))
      ensures theme == old(theme) && layout == old(layout) && |toasts| == |old(toasts)| + 1
    {
      data := ExportData(theme, layout);
      toasts := toasts + [UseApi.Toast("Тема экспортирована", "Файл настроек загружен", false)];
    }
  }
}
