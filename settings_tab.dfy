/**
 * The overlay settings surface of renderer/components/SettingsTab.tsx: the values it
 * writes to the settings store, the clamps applied to font size and interval, the
 * selected-database guard and the hide-and-show reload of the overlay.
 */
module SettingsTab {
  import opened Wrappers
  import GlobalStore

  /** STICKY_WINDOW_DEFAULT_FONTSIZE (renderer/const.ts). */
  const DefaultFontSize: int := 14
  /** STICKY_WINDOW_DEFAULT_INTERVAL in milliseconds (renderer/const.ts). */
  const DefaultIntervalMs: int := 5000

  /** The font size handed to changeFontSize: never below the default size. */
  function ClampFontSize(size: int): (r: int)
    ensures r >= DefaultFontSize
    ensures r == size || r == DefaultFontSize
    ensures size >= DefaultFontSize ==> r == size
  {
    if size < DefaultFontSize then DefaultFontSize else size
  }

  /** The interval (seconds) handed to changeInterval: never below floor(5000 / 1000) = 5. */
  function ClampInterval(interval: int): (r: int)
    ensures r >= 5
    ensures interval < 5 ==> r == 5
    ensures interval >= 5 ==> r == interval
  {
    var floor := DefaultIntervalMs / 1000;
    if interval < floor then floor else interval
  }

  /** Clamping twice is clamping once, and a larger request never yields a smaller size. */
  lemma ClampFontSizeStable(a: int, b: int)
    requires a <= b
    ensures ClampFontSize(ClampFontSize(a)) == ClampFontSize(a)
    ensures ClampFontSize(a) <= ClampFontSize(b)
  {
  }

  /**
   * The first element of the select's key set, as a JavaScript value: the set is
   * empty after a restore or a delete (undefined), holds null on first render when
   * nothing was selected, or holds a database name.
   */
  datatype SelectionKey = Undefined | NullKey | Key(name: string)

  /** `dbName !== selectedDB` for a store value that is a name or null. */
  predicate StrictlyDiffers(chosen: SelectionKey, current: Option<string>) {
    match chosen
    case Undefined => true
    case NullKey => current.Some?
    case Key(s) => current != Some(s)
  }

  /** `dbName || null`: undefined, null and the empty name all become null. */
  function ChosenDb(chosen: SelectionKey): (r: Option<string>)
    ensures r.Some? <==> chosen.Key? && chosen.name != ""
    ensures r.Some? ==> r.value == chosen.name
  {
    match chosen
    case Key(s) => if s == "" then None else Some(s)
    case _ => None
  }

  /**
   * The effect on selectedDBKey: None when the guard holds the store back, otherwise
   * Some of the value passed to changeSelectedDB (which is followed by a reload).
   */
  function SelectionUpdate(current: Option<string>, chosen: SelectionKey): (r: Option<Option<string>>)
    ensures r.Some? <==> StrictlyDiffers(chosen, current)
    ensures r.Some? ==> r.value == ChosenDb(chosen)
  {
    if StrictlyDiffers(chosen, current) then Some(ChosenDb(chosen)) else None
  }

  /**
   * The stored selection moves only to a different, non-empty chosen name or to null,
   * and choosing the name already selected changes nothing and reloads nothing.
   */
  lemma SelectionChangesOnlyOnDifference(current: Option<string>, chosen: SelectionKey)
    ensures current.Some? && chosen == Key(current.value) ==> SelectionUpdate(current, chosen).None?
    ensures var r := SelectionUpdate(current, chosen);
            r.Some? && r.value != current ==> r.value.None? || (chosen.Key? && r.value == Some(chosen.name))
  {
  }

  /** An emptied key set with nothing selected still calls changeSelectedDB(null) and reloads. */
  lemma EmptySelectionStillReloads()
    ensures SelectionUpdate(None, Undefined) == Some(None)
  {
  }

  /** The overlay settings held by the settings store, as SettingsTab changes them. */
  class Panel {
    var selectedDB: Option<string>
    var fontSize: int
    var interval: int
    var autoResize: bool
    var isRandom: bool
    var isBreakLine: bool
    var isFurigana: bool
    var splitedBy: string
    var bgColor: string
    var pitch: real
    var rate: real
    var runOnStartup: bool
    const global: GlobalStore.Store

    constructor (global: GlobalStore.Store, selectedDB: Option<string>)
      ensures this.global == global && this.selectedDB == selectedDB
    {
      this.global := global;
      this.selectedDB := selectedDB;
      fontSize := DefaultFontSize;
      interval := DefaultIntervalMs / 1000;
      autoResize, isRandom, isBreakLine, isFurigana := false, false, false, false;
      splitedBy, bgColor := "", "";
      pitch, rate := 1.0, 1.0;
      runOnStartup := false;
    }

    /** `reloadSticky`: hide and show the overlay again when it is shown; otherwise nothing. */
    method ReloadSticky()
      modifies global
      ensures global.isShowSticky == old(global.isShowSticky)
      ensures global.toggles == old(global.toggles) + (if old(global.isShowSticky) then 2 else 0)
    {
      if global.isShowSticky {
        global.ToggleShowSticky();
        global.ToggleShowSticky();
      }
    }

    /** The effect on selectedDBKey (the guard against the first render). */
    method SelectedKeyChanged(chosen: SelectionKey)
      modifies this`selectedDB, global
      ensures selectedDB == (if StrictlyDiffers(chosen, old(selectedDB)) then ChosenDb(chosen) else old(selectedDB))
      ensures global.isShowSticky == old(global.isShowSticky)
      ensures global.toggles == old(global.toggles)
        + (if StrictlyDiffers(chosen, old(selectedDB)) && old(global.isShowSticky) then 2 else 0)
    {
      var update := SelectionUpdate(selectedDB, chosen);
      if update.Some? {
        selectedDB := update.value;
        ReloadSticky();
      }
    }

    method ChangeFontSize(size: int)
      modifies this`fontSize, global
      ensures fontSize == ClampFontSize(size)
      ensures global.isShowSticky == old(global.isShowSticky)
      ensures global.toggles == old(global.toggles) + (if old(global.isShowSticky) then 2 else 0)
    {
      fontSize := ClampFontSize(size);
      ReloadSticky();
    }

    method ChangeInterval(seconds: int)
      modifies this`interval, global
      ensures interval == ClampInterval(seconds)
      ensures global.isShowSticky == old(global.isShowSticky)
      ensures global.toggles == old(global.toggles) + (if old(global.isShowSticky) then 2 else 0)
    {
      interval := ClampInterval(seconds);
      ReloadSticky();
    }

    method ChangeAutoResize(b: bool)
      modifies this`autoResize, global
      ensures autoResize == b
      ensures global.isShowSticky == old(global.isShowSticky)
      ensures global.toggles == old(global.toggles) + (if old(global.isShowSticky) then 2 else 0)
    {
      autoResize := b;
      ReloadSticky();
    }

    method ChangeIsRandom(b: bool)
      modifies this`isRandom, global
      ensures isRandom == b
      ensures global.isShowSticky == old(global.isShowSticky)
      ensures global.toggles == old(global.toggles) + (if old(global.isShowSticky) then 2 else 0)
    {
      isRandom := b;
      ReloadSticky();
    }

    method ChangeIsBreakLine(b: bool)
      modifies this`isBreakLine, global
      ensures isBreakLine == b
      ensures global.isShowSticky == old(global.isShowSticky)
      ensures global.toggles == old(global.toggles) + (if old(global.isShowSticky) then 2 else 0)
    {
      isBreakLine := b;
      ReloadSticky();
    }

    method ChangeIsFurigana(b: bool)
      modifies this`isFurigana, global
      ensures isFurigana == b
      ensures global.isShowSticky == old(global.isShowSticky)
      ensures global.toggles == old(global.toggles) + (if old(global.isShowSticky) then 2 else 0)
    {
      isFurigana := b;
      ReloadSticky();
    }

    method ChangeSplitedBy(s: string)
      modifies this`splitedBy, global
      ensures splitedBy == s
      ensures global.isShowSticky == old(global.isShowSticky)
      ensures global.toggles == old(global.toggles) + (if old(global.isShowSticky) then 2 else 0)
    {
      splitedBy := s;
      ReloadSticky();
    }

    method ChangeBgColor(color: string)
      modifies this`bgColor, global
      ensures bgColor == color
      ensures global.isShowSticky == old(global.isShowSticky)
      ensures global.toggles == old(global.toggles) + (if old(global.isShowSticky) then 2 else 0)
    {
      bgColor := color;
      ReloadSticky();
    }

    /** Pitch after parseFloat; the parse itself is not modelled. */
    method ChangePitch(p: real)
      modifies this`pitch, global
      ensures pitch == p
      ensures global.isShowSticky == old(global.isShowSticky)
      ensures global.toggles == old(global.toggles) + (if old(global.isShowSticky) then 2 else 0)
    {
      pitch := p;
      ReloadSticky();
    }

    /** Rate after parseFloat; the parse itself is not modelled. */
    method ChangeRate(r: real)
      modifies this`rate, global
      ensures rate == r
      ensures global.isShowSticky == old(global.isShowSticky)
      ensures global.toggles == old(global.toggles) + (if old(global.isShowSticky) then 2 else 0)
    {
      rate := r;
      ReloadSticky();
    }

    /** The one handler that does not reload the overlay. */
    method ChangeRunOnStartup(b: bool)
      modifies this`runOnStartup
      ensures runOnStartup == b
    {
      runOnStartup := b;
    }
  }
}
