/**
 * The record table of renderer/components/DataTable.tsx: the header names derived
 * from a row's keys, the per-column overlay settings (shown, spoken, voice) and their
 * updates, the optimistic "memorized" update and the speak button.
 */
module DataTable {
  import opened Wrappers
  import opened Strings
  import opened Records
  import GlobalStore

  /** `ColumnNameType` without the unused `sortable` flag. */
  datatype ColumnName = ColumnName(key: string, name: Option<string>)

  /** `ColumnSettingsType`: `index` is the content-column number (key position - 1). */
  datatype ColumnSetting = ColumnSetting(index: int, isShown: bool, isSpeech: bool, voiceName: string)

  /** A SpeechSynthesisVoice, reduced to what the table uses. */
  datatype Voice = Voice(voiceURI: string, name: string, lang: string)

  /** What handleSpeak asks of speechSynthesis, in order. */
  datatype SpeechCall = Cancel | Speak(text: string, voice: Option<Voice>)

  // ---------------------------------------------------------------------------
  // Header names

  /** `${PREFIX} ${k}`, the name of content column k. */
  function ContentHeader(k: int): (h: string)
    ensures |h| > 7 && h[..7] == "Column " && h[7..] == IntToString(k)
  {
    "Column" + " " + IntToString(k)
  }

  /** The display name of key position `i` among `n` keys (renderer/messages.ts supplies the words). */
  function HeaderName(i: nat, n: nat): string {
    if i == 0 then "ID"
    else if i == 1 then "Memorized"
    else if i == n - 1 then "Created At"
    else ContentHeader(i - 1)
  }

  /** The three fixed names do not start like a content-column name. */
  lemma FixedHeaderPrefix(i: nat, n: nat)
    requires i < n && !(2 <= i < n - 1)
    ensures |HeaderName(i, n)| >= 2 && HeaderName(i, n)[..2] != "Co"
  {
    var h := HeaderName(i, n);
    if i == 0 {
      assert h == "ID" && h[..2][0] == 'I';
    } else if i == 1 {
      assert h == "Memorized" && h[..2][0] == 'M';
    } else {
      assert h == "Created At" && h[..2][1] == 'r';
    }
  }

  /** No two positions of one header get the same name. */
  lemma HeaderNamesDistinct(n: nat, i: nat, j: nat)
    requires i < n && j < n && i != j
    ensures HeaderName(i, n) != HeaderName(j, n)
  {
    var content_i, content_j := 2 <= i < n - 1, 2 <= j < n - 1;
    if content_i && content_j {
      if HeaderName(i, n) == HeaderName(j, n) {
        IntToStringInjective(i - 1, j - 1);
      }
    } else if content_i {
      FixedHeaderPrefix(j, n);
    } else if content_j {
      FixedHeaderPrefix(i, n);
    } else {
      FixedHeaderPrefix(i, n);
      FixedHeaderPrefix(j, n);
    }
  }

  /**
   * The `columnNames` memo: for non-empty data one entry per key of the first row,
   * in key order, named by position; otherwise the single placeholder `default`.
   */
  method ColumnNames(data: seq<Row>) returns (names: seq<ColumnName>)
    ensures data == [] ==> names == [ColumnName("default", None)]
    ensures data != [] ==> |names| == |data[0]|
    ensures data != [] ==> forall i :: 0 <= i < |names| ==>
      names[i] == ColumnName(data[0][i].0, Some(HeaderName(i, |names|)))
  {
    if |data| > 0 {
      var keys := Keys(data[0]);
      var pending: seq<ColumnName> := [];
      var k := 0;
      while k < |keys|
        invariant 0 <= k <= |keys|
        invariant |pending| == k
        invariant forall m :: 0 <= m < k ==> pending[m] == ColumnName(keys[m], None)
      {
        pending := pending + [ColumnName(keys[k], None)];
        k := k + 1;
      }
      names := [];
      var i := 0;
      while i < |pending|
        invariant 0 <= i <= |pending|
        invariant |names| == i
        invariant forall m :: 0 <= m < i ==>
          names[m] == ColumnName(pending[m].key, Some(HeaderName(m, |pending|)))
      {
        names := names + [pending[i].(name := Some(HeaderName(i, |pending|)))];
        i := i + 1;
      }
    } else {
      names := [ColumnName("default", None)];
    }
  }

  // ---------------------------------------------------------------------------
  // Initial column settings

  /**
   * The loop of the column-settings effect over the first row's keys: one entry per
   * content position (neither the first two keys nor the last), all shown and spoken
   * with the first voice.
   */
  method BuildInitialSettings(keys: seq<string>, voiceURI: string) returns (settings: seq<ColumnSetting>)
    ensures |settings| == if |keys| >= 3 then |keys| - 3 else 0
    ensures forall k :: 0 <= k < |settings| ==> settings[k] == ColumnSetting(k + 1, true, true, voiceURI)
  {
    settings := [];
    var n := |keys|;
    var i := 0;
    while i < n
      invariant 0 <= i <= n
      invariant |settings| == if i <= 2 then 0 else if i <= n - 1 then i - 2 else n - 3
      invariant forall k :: 0 <= k < |settings| ==> settings[k] == ColumnSetting(k + 1, true, true, voiceURI)
    {
      if i > 1 && i != n - 1 {
        settings := settings + [ColumnSetting(i - 1, true, true, voiceURI)];
      }
      i := i + 1;
    }
  }

  // ---------------------------------------------------------------------------
  // Settings updates

  /** `settings.find(s => s.index === i)` is truthy. */
  predicate HasIndex(settings: seq<ColumnSetting>, i: int) {
    exists k :: 0 <= k < |settings| && settings[k].index == i
  }

  /** The update of handleToggleShowInSticky. */
  function ToggleShow(prev: seq<ColumnSetting>, i: int, isShow: bool): (r: seq<ColumnSetting>)
    ensures isShow && !HasIndex(prev, i) ==> r == prev + [ColumnSetting(i, true, true, "")]
    ensures !isShow || HasIndex(prev, i) ==> |r| == |prev|
    ensures !isShow || HasIndex(prev, i) ==> forall k :: 0 <= k < |prev| ==>
      && (prev[k].index != i ==> r[k] == prev[k])
      && (prev[k].index == i ==> r[k] == ColumnSetting(i, isShow, prev[k].isSpeech, prev[k].voiceName))
  {
    if isShow && !HasIndex(prev, i) then prev + [ColumnSetting(i, true, true, "")]
    else seq(|prev|, k requires 0 <= k < |prev| => if prev[k].index == i then prev[k].(isShown := isShow) else prev[k])
  }

  /** After the toggle every entry for column `i` is shown as requested, and showing leaves one. */
  lemma {:induction false} ToggleShowEffect(prev: seq<ColumnSetting>, i: int, isShow: bool)
    ensures var r := ToggleShow(prev, i, isShow);
      && (forall k :: 0 <= k < |r| && r[k].index == i ==> r[k].isShown == isShow)
      && (isShow ==> HasIndex(r, i))
      && (!isShow ==> HasIndex(r, i) == HasIndex(prev, i))
  {
    var r := ToggleShow(prev, i, isShow);
    if isShow && !HasIndex(prev, i) {
      assert r[|prev|].index == i;
    } else if HasIndex(prev, i) {
      var k :| 0 <= k < |prev| && prev[k].index == i;
      assert r[k].index == i;
    } else {
      assert !HasIndex(r, i);
    }
  }

  /** Toggling a column twice to the same state is toggling it once. */
  lemma ToggleShowIdempotent(prev: seq<ColumnSetting>, i: int, isShow: bool)
    ensures ToggleShow(ToggleShow(prev, i, isShow), i, isShow) == ToggleShow(prev, i, isShow)
  {
    ToggleShowEffect(prev, i, isShow);
    var r := ToggleShow(prev, i, isShow);
    if isShow {
      assert HasIndex(r, i);
    }
  }

  /**
   * The update of handleToggleSpeechInSticky; `available` is what getVoices() returns
   * at that moment. A voice is filled in only when enabling speech on an entry that
   * has none and a voice exists.
   */
  function ToggleSpeech(prev: seq<ColumnSetting>, i: int, isSpeech: bool, available: seq<Voice>): (r: seq<ColumnSetting>)
    ensures |r| == |prev|
    ensures forall k :: 0 <= k < |prev| && prev[k].index != i ==> r[k] == prev[k]
    ensures forall k :: 0 <= k < |prev| && prev[k].index == i ==>
      && r[k].index == i && r[k].isShown == prev[k].isShown && r[k].isSpeech == isSpeech
      && r[k].voiceName == (if isSpeech && prev[k].voiceName == "" && |available| > 0
                            then available[0].voiceURI else prev[k].voiceName)
  {
    seq(|prev|, k requires 0 <= k < |prev| =>
      if prev[k].index == i then
        var voiceName := if isSpeech && prev[k].voiceName == "" && |available| > 0
                         then available[0].voiceURI else prev[k].voiceName;
        prev[k].(isSpeech := isSpeech, voiceName := voiceName)
      else prev[k])
  }

  /** Disabling speech never touches a voice; enabling it never clears one. */
  lemma ToggleSpeechKeepsVoices(prev: seq<ColumnSetting>, i: int, isSpeech: bool, available: seq<Voice>)
    ensures var r := ToggleSpeech(prev, i, isSpeech, available);
      forall k :: 0 <= k < |prev| ==>
        (!isSpeech ==> r[k].voiceName == prev[k].voiceName)
        && (prev[k].voiceName != "" ==> r[k].voiceName == prev[k].voiceName)
  {
  }

  /** The update of handleVoiceChange: only entries for column `i` get the new voice. */
  function ChangeVoice(prev: seq<ColumnSetting>, i: int, voiceURI: string): (r: seq<ColumnSetting>)
    ensures |r| == |prev|
    ensures forall k :: 0 <= k < |prev| && prev[k].index != i ==> r[k] == prev[k]
    ensures forall k :: 0 <= k < |prev| && prev[k].index == i ==>
      r[k] == ColumnSetting(i, prev[k].isShown, prev[k].isSpeech, voiceURI)
  {
    seq(|prev|, k requires 0 <= k < |prev| => if prev[k].index == i then prev[k].(voiceName := voiceURI) else prev[k])
  }

  // ---------------------------------------------------------------------------
  // Memorized flag

  function RememberFlag(isSelected: bool): int {
    if isSelected then 1 else 0
  }

  /** The optimistic update of toggleRemember: `{...item, isRemember}` on the rows whose id matches. */
  function ToggleRemember(rows: seq<Row>, id: int, isSelected: bool): (r: seq<Row>)
    ensures |r| == |rows|
    ensures forall k :: 0 <= k < |rows| && Lookup(rows[k], "id") != Some(Num(id)) ==> r[k] == rows[k]
    ensures forall k :: 0 <= k < |rows| && Lookup(rows[k], "id") == Some(Num(id)) ==>
      && Lookup(r[k], "isRemember") == Some(Num(RememberFlag(isSelected)))
      && (forall key :: key != "isRemember" ==> Lookup(r[k], key) == Lookup(rows[k], key))
      && ("isRemember" in Keys(rows[k]) ==> Keys(r[k]) == Keys(rows[k]))
  {
    var flag := Num(RememberFlag(isSelected));
    assert forall k :: 0 <= k < |rows| ==>
      forall key :: key != "isRemember" ==> Lookup(Assign(rows[k], "isRemember", flag), key) == Lookup(rows[k], key)
    by {
      forall k | 0 <= k < |rows| {
        AssignKeepsOthers(rows[k], "isRemember", flag);
      }
    }
    seq(|rows|, k requires 0 <= k < |rows| =>
      if Lookup(rows[k], "id") == Some(Num(id)) then Assign(rows[k], "isRemember", flag)
      else rows[k])
  }

  // ---------------------------------------------------------------------------
  // Speaking a cell

  /** Drops the rest of a tag after its `<`: everything up to and including the first `>`. */
  function SkipTag(s: string): (r: string)
    ensures |r| <= |s|
  {
    if s == [] then []
    else if s[0] == '>' then s[1..]
    else SkipTag(s[1..])
  }

  /** `s.replace(/<[^>]*>?/gm, '')`: each `<` with what follows up to and including the next `>`. */
  function StripTags(s: string): (r: string)
    ensures '<' !in r
    ensures '<' !in s ==> r == s
    ensures |r| <= |s|
    decreases |s|
  {
    if s == [] then []
    else if s[0] == '<' then StripTags(SkipTag(s[1..]))
    else [s[0]] + StripTags(s[1..])
  }

  /** Cleaning an already clean text changes nothing. */
  lemma StripTagsIdempotent(s: string)
    ensures StripTags(StripTags(s)) == StripTags(s)
  {
  }

  /** Text before the first `<` is kept as it is. */
  lemma {:induction false} StripTagsPlainPrefix(a: string, s: string)
    requires '<' !in a
    ensures StripTags(a + s) == a + StripTags(s)
  {
    if a != [] {
      assert (a + s)[0] == a[0] && (a + s)[1..] == a[1..] + s;
      StripTagsPlainPrefix(a[1..], s);
      assert a == [a[0]] + a[1..];
    } else {
      assert a + s == s;
    }
  }

  /** A tag body without `>` is skipped together with the `>` that closes it. */
  lemma {:induction false} SkipTagClosed(t: string, b: string)
    requires '>' !in t
    ensures SkipTag(t + ">" + b) == b
  {
    if t != [] {
      assert (t + ">" + b)[0] == t[0] && (t + ">" + b)[1..] == t[1..] + ">" + b;
      SkipTagClosed(t[1..], b);
    } else {
      assert t + ">" + b == ">" + b;
    }
  }

  /** A tag that is never closed swallows the rest of the text. */
  lemma {:induction false} SkipTagUnclosed(t: string)
    requires '>' !in t
    ensures SkipTag(t) == []
  {
    if t != [] {
      SkipTagUnclosed(t[1..]);
    }
  }

  /** Removing a closed tag keeps the text on both sides of it, in order. */
  lemma StripTagsKeepsText(a: string, t: string, b: string)
    requires '<' !in a && '>' !in t
    ensures StripTags(a + "<" + t + ">" + b) == a + StripTags(b)
  {
    var tag := "<" + t + ">" + b;
    assert a + "<" + t + ">" + b == a + tag;
    StripTagsPlainPrefix(a, tag);
    assert tag[0] == '<' && tag[1..] == t + ">" + b;
    SkipTagClosed(t, b);
  }

  /** An unclosed `<` removes everything after it, and the text before it is kept. */
  lemma StripTagsUnclosed(a: string, t: string)
    requires '<' !in a && '>' !in t
    ensures StripTags(a + "<" + t) == a
  {
    var tag := "<" + t;
    assert a + "<" + t == a + tag;
    StripTagsPlainPrefix(a, tag);
    assert tag[0] == '<' && tag[1..] == t;
    SkipTagUnclosed(t);
    assert a + [] == a;
  }

  /** The position `settings.find(s => s.index === index)` finds: the first match, or -1. */
  function FindSettingPosition(settings: seq<ColumnSetting>, index: int): (p: int)
    ensures -1 <= p < |settings|
    ensures p >= 0 ==> settings[p].index == index && forall m :: 0 <= m < p ==> settings[m].index != index
    ensures p == -1 <==> !HasIndex(settings, index)
  {
    if settings == [] then -1
    else if settings[0].index == index then 0
    else
      var rest := FindSettingPosition(settings[1..], index);
      if rest == -1 then -1 else rest + 1
  }

  /** `settings.find(s => s.index === index)`. */
  function FindSetting(settings: seq<ColumnSetting>, index: int): Option<ColumnSetting> {
    var p := FindSettingPosition(settings, index);
    if p >= 0 then Some(settings[p]) else None
  }

  /** `voices.find(v => v.voiceURI === uri)`. */
  function FindVoice(voices: seq<Voice>, uri: string): (r: Option<Voice>)
    ensures r.None? <==> forall k :: 0 <= k < |voices| ==> voices[k].voiceURI != uri
    ensures r.Some? ==> r.value in voices && r.value.voiceURI == uri
  {
    if voices == [] then None
    else if voices[0].voiceURI == uri then Some(voices[0])
    else FindVoice(voices[1..], uri)
  }

  /** `handleSpeak(text, columnIndex)`, as the calls it makes on speechSynthesis. */
  function HandleSpeak(text: string, columnIndex: int, settings: seq<ColumnSetting>, voices: seq<Voice>)
    : (calls: seq<SpeechCall>)
    ensures text == "" ==> calls == []
    ensures text != "" ==> |calls| == 2 && calls[0] == Cancel && calls[1].Speak?
    ensures text != "" ==> calls[1].text == StripTags(text) && '<' !in calls[1].text
    ensures text != "" && calls[1].voice.Some? ==>
      var setting := FindSetting(settings, columnIndex);
      && setting.Some? && setting.value.voiceName != ""
      && calls[1].voice.value in voices && calls[1].voice.value.voiceURI == setting.value.voiceName
    ensures text != "" && calls[1].voice.None? ==>
      var setting := FindSetting(settings, columnIndex);
      || setting.None? || setting.value.voiceName == ""
      || forall k :: 0 <= k < |voices| ==> voices[k].voiceURI != setting.value.voiceName
  {
    if text == "" then []
    else
      var cleanText := StripTags(text);
      var setting := FindSetting(settings, columnIndex);
      var voice := if setting.Some? && setting.value.voiceName != ""
                   then FindVoice(voices, setting.value.voiceName) else None;
      [Cancel, Speak(cleanText, voice)]
  }

  // ---------------------------------------------------------------------------
  // The component state

  class Table {
    var data: seq<Row>
    var columnSettings: seq<ColumnSetting>
    var voices: seq<Voice>
    /**
     * The local-storage entry under COLUMN_SETTINGS. renderer/const.ts does not define
     * that name, so the entry the table reads and writes is the one keyed `undefined`.
     */
    var stored: Option<seq<ColumnSetting>>
    const global: GlobalStore.Store

    constructor (global: GlobalStore.Store, stored: Option<seq<ColumnSetting>>)
      ensures this.global == global && this.stored == stored
      ensures data == [] && columnSettings == [] && voices == []
    {
      this.global := global;
      this.stored := stored;
      data, columnSettings, voices := [], [], [];
    }

    /** The mount effect: stored settings, when there are any, replace the empty list. */
    method LoadStoredSettings(available: seq<Voice>)
      modifies this`columnSettings, this`voices
      ensures columnSettings == (if stored.Some? then stored.value else old(columnSettings))
      ensures voices == available
    {
      if stored.Some? {
        columnSettings := stored.value;
      }
      voices := available;
    }

    /** `setData` with a fresh listing (the random-order sort is not modelled). */
    method SetData(rows: seq<Row>)
      modifies this`data
      ensures data == rows
    {
      data := rows;
    }

    /**
     * The column-settings effect: with data, no settings yet and at least one voice,
     * build the initial list from the first row's keys, store it and use it.
     */
    method ColumnSettingsEffect()
      modifies this`columnSettings, this`stored
      ensures var guard := |data| > 0 && |old(columnSettings)| == 0 && |voices| > 0;
        && (!guard ==> columnSettings == old(columnSettings) && stored == old(stored))
        && (guard ==> stored == Some(columnSettings)
                      && |columnSettings| == (if |data[0]| >= 3 then |data[0]| - 3 else 0)
                      && forall k :: 0 <= k < |columnSettings| ==>
                           columnSettings[k] == ColumnSetting(k + 1, true, true, voices[0].voiceURI))
    {
      if |data| > 0 && |columnSettings| == 0 && |voices| > 0 {
        var initial := BuildInitialSettings(Keys(data[0]), voices[0].voiceURI);
        stored := Some(initial);
        columnSettings := initial;
      }
    }

    /** `reloadSticky`: two toggles of the overlay when it is shown (the second after a delay). */
    method ReloadSticky()
      modifies global
      ensures global.isShowSticky == old(global.isShowSticky)
      ensures global.toggles == old(global.toggles) + (if old(global.isShowSticky) then 2 else 0)
    {
      if global.isShowSticky {
        global.ToggleShowSticky();
        global.ToggleShowSticky();
      }
    }

    method ToggleShowInSticky(i: int, isShow: bool)
      modifies this`columnSettings, this`stored, global
      ensures columnSettings == ToggleShow(old(columnSettings), i, isShow)
      ensures stored == Some(columnSettings)
      ensures global.isShowSticky == old(global.isShowSticky)
      ensures global.toggles == old(global.toggles) + (if old(global.isShowSticky) then 2 else 0)
    {
      columnSettings := ToggleShow(columnSettings, i, isShow);
      stored := Some(columnSettings);
      ReloadSticky();
    }

    method ToggleSpeechInSticky(i: int, isSpeech: bool, available: seq<Voice>)
      modifies this`columnSettings, this`stored, global
      ensures columnSettings == ToggleSpeech(old(columnSettings), i, isSpeech, available)
      ensures stored == Some(columnSettings)
      ensures global.isShowSticky == old(global.isShowSticky)
      ensures global.toggles == old(global.toggles) + (if old(global.isShowSticky) then 2 else 0)
    {
      columnSettings := ToggleSpeech(columnSettings, i, isSpeech, available);
      stored := Some(columnSettings);
      ReloadSticky();
    }

    method VoiceChange(i: int, voiceURI: string)
      modifies this`columnSettings, this`stored, global
      ensures columnSettings == ChangeVoice(old(columnSettings), i, voiceURI)
      ensures stored == Some(columnSettings)
      ensures global.isShowSticky == old(global.isShowSticky)
      ensures global.toggles == old(global.toggles) + (if old(global.isShowSticky) then 2 else 0)
    {
      columnSettings := ChangeVoice(columnSettings, i, voiceURI);
      stored := Some(columnSettings);
      ReloadSticky();
    }

    /** `toggleRemember`: the database request is not modelled, the optimistic update is. */
    method ToggleRememberRow(id: int, isSelected: bool)
      modifies this`data
      ensures data == ToggleRemember(old(data), id, isSelected)
    {
      data := ToggleRemember(data, id, isSelected);
    }
  }
}
