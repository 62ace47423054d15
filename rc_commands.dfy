/**
 * The learned-command bookkeeping the RM3 mini and RM4 pro drivers share:
 * the command store (an ordered list of named codes), the settings
 * `RcCmd0`, `RcCmd1`, ... that show one page of its names, and the rules by
 * which the user's edits of those settings rename and delete commands.
 *
 * The store's own operations (find, rename, delete, add, look up) belong to
 * a data-store module that is not part of this model; they are modelled on
 * the list of commands as acting on the first command of the given name.
 */
module RcCommands {
  import opened Results
  import opened Bytes
  import opened Decimal
  import opened Codec
  import opened Communicate

  /** A settings value: a text field, a number field or a check box. */
  datatype Value = Text(s: string) | Number(n: int) | Flag(b: bool)

  type Settings = map<string, Value>

  predicate Truthy(v: Value)
  {
    match v
    case Text(s) => s != ""
    case Number(n) => n != 0
    case Flag(b) => b
  }

  /** The text `parseInt` reads of a value. */
  function ToText(v: Value): string
  {
    match v
    case Text(s) => s
    case Number(n) => IntString(n)
    case Flag(b) => if b then "true" else "false"
  }

  /** `m[key] || ""`. */
  function Get(m: Settings, key: string): (v: Value)
    ensures Truthy(v) || v == Text("")
  {
    if key in m && Truthy(m[key]) then m[key] else Text("")
  }

  /** `name && name.length > 0`: only text has a length. */
  predicate IsName(v: Value)
  {
    v.Text? && v.s != ""
  }

  // ---------------------------------------------------------------- the command store

  datatype Command = Command(name: string, data: seq<byte>)

  function Names(store: seq<Command>): (names: seq<string>)
    ensures |names| == |store| && forall i :: 0 <= i < |store| ==> names[i] == store[i].name
  {
    seq(|store|, i requires 0 <= i < |store| => store[i].name)
  }

  /** The index of the first command of that name, or -1. */
  function Find(store: seq<Command>, name: string): (j: int)
    ensures -1 <= j < |store|
    ensures j >= 0 ==> store[j].name == name && forall k :: 0 <= k < j ==> store[k].name != name
    ensures j == -1 <==> forall k :: 0 <= k < |store| ==> store[k].name != name
  {
    if |store| == 0 then -1
    else if store[0].name == name then 0
    else
      var j := Find(store[1..], name);
      if j < 0 then -1 else j + 1
  }

  function Rename(store: seq<Command>, from: string, to: string): seq<Command>
  {
    var i := Find(store, from);
    if i < 0 then store else store[i := store[i].(name := to)]
  }

  function Delete(store: seq<Command>, name: string): seq<Command>
  {
    var i := Find(store, name);
    if i < 0 then store else store[..i] + store[i + 1..]
  }

  /** The code stored under a name; `None` when no command has it. */
  function Lookup(store: seq<Command>, name: string): Option<seq<byte>>
  {
    var i := Find(store, name);
    if i < 0 then None else Some(store[i].data)
  }

  /** No two commands share a name. */
  predicate DistinctNames(store: seq<Command>)
  {
    forall i, j :: 0 <= i < j < |store| ==> store[i].name != store[j].name
  }

  /** A rename to a name not yet stored keeps the names distinct, and the command is then found by its new name. */
  lemma RenameKeepsDistinct(store: seq<Command>, from: string, to: string)
    requires DistinctNames(store) && Find(store, to) < 0
    ensures DistinctNames(Rename(store, from, to))
    ensures Find(store, from) >= 0 ==>
      Find(Rename(store, from, to), to) == Find(store, from) && Find(Rename(store, from, to), from) < 0
    ensures Find(store, from) < 0 ==> Rename(store, from, to) == store
  {
  }

  /** A delete removes the one command of that name and keeps the others, in order. */
  lemma DeleteKeepsDistinct(store: seq<Command>, name: string)
    requires DistinctNames(store)
    ensures var r := Delete(store, name);
      && DistinctNames(r) && Find(r, name) < 0
      && (Find(store, name) >= 0 ==> |r| == |store| - 1)
      && (Find(store, name) < 0 ==> r == store)
      && forall c :: c in store && c.name != name ==> c in r
  {
    var r := Delete(store, name);
    var i := Find(store, name);
    if i >= 0 {
      forall c | c in store && c.name != name
        ensures c in r
      {
        var k :| 0 <= k < |store| && store[k] == c;
        if k < i {
          assert r[k] == c;
        } else {
          assert r[k - 1] == c;
        }
      }
    }
  }

  /** Adding a command under a fresh name keeps the names distinct, and the code is found under it. */
  lemma AddKeepsDistinct(store: seq<Command>, name: string, data: seq<byte>)
    requires DistinctNames(store) && name !in Names(store)
    ensures DistinctNames(store + [Command(name, data)])
    ensures Lookup(store + [Command(name, data)], name) == Some(data)
  {
    var s := store + [Command(name, data)];
    assert s[|store|].name == name;
    assert forall k :: 0 <= k < |store| ==> s[k].name != name by {
      forall k | 0 <= k < |store|
        ensures s[k].name != name
      {
        assert Names(store)[k] == s[k].name;
      }
    }
  }

  // ---------------------------------------------------------------- the RcCmd slots

  function SlotName(i: nat): string
  {
    Tag("RcCmd", i)
  }

  /** Slots `RcCmd0` .. `RcCmd<n-1>` all exist. */
  predicate SlotsPresent(settings: Settings, n: nat)
  {
    forall k :: 0 <= k < n ==> SlotName(k) in settings
  }

  /** The slots are distinct keys, so a run of them is no longer than the settings. */
  lemma RunBound(settings: Settings, n: nat)
    requires SlotsPresent(settings, n)
    ensures n <= |settings|
  {
    forall k | 0 <= k < n
      ensures Tag("RcCmd", k) in settings.Keys
    {
      assert SlotName(k) in settings;
    }
    TagsFit("RcCmd", 0, n, settings.Keys);
  }

  /** The end of the contiguous run of slots that exist, from slot `i` on. */
  function RunLength(settings: Settings, i: nat): (n: nat)
    requires SlotsPresent(settings, i)
    ensures i <= n && SlotsPresent(settings, n) && SlotName(n) !in settings
    decreases |settings| - i
  {
    if SlotName(i) !in settings then i
    else
      RunBound(settings, i + 1);
      RunLength(settings, i + 1)
  }

  /** `settings[slot].length == 0`: a slot is free when it holds the empty text. */
  predicate Free(v: Value)
  {
    v == Text("")
  }

  /** The first free slot of the run from slot `i` on. */
  function FirstFree(settings: Settings, i: nat): (r: Option<nat>)
    requires SlotsPresent(settings, i)
    ensures r.Some? ==> i <= r.value < RunLength(settings, i) && Free(settings[SlotName(r.value)])
    ensures forall k :: i <= k < RunLength(settings, i) && (r.None? || k < r.value) ==> !Free(settings[SlotName(k)])
    decreases |settings| - i
  {
    if SlotName(i) !in settings then None
    else if Free(settings[SlotName(i)]) then Some(i)
    else
      RunBound(settings, i + 1);
      FirstFree(settings, i + 1)
  }

  /** The settings after `storeCmdSetting(name)`. */
  function WithName(settings: Settings, name: string): Settings
  {
    match FirstFree(settings, 0)
    case None => settings
    case Some(k) => settings[SlotName(k) := Text(name)]
  }

  /**
   * `storeCmdSetting` writes the name into the lowest free slot of the run
   * and changes nothing else; with no free slot in the run it changes nothing.
   */
  lemma WithNameEffect(settings: Settings, name: string)
    ensures var s := WithName(settings, name);
      var n := RunLength(settings, 0);
      && s.Keys == settings.Keys
      && ((forall k :: 0 <= k < n ==> !Free(settings[SlotName(k)])) ==> s == settings)
      && forall k :: (0 <= k < n && Free(settings[SlotName(k)])
                      && (forall j :: 0 <= j < k ==> !Free(settings[SlotName(j)]))) ==>
           s == settings[SlotName(k) := Text(name)]
  {
    var r := FirstFree(settings, 0);
    if r.Some? {
      assert SlotName(r.value) in settings;
    }
  }

  /** `names[offset + i] || ""`. */
  function NameAt(names: seq<string>, j: int): string
  {
    if 0 <= j < |names| then names[j] else ""
  }

  function PageLabel(offset: int): string
  {
    if offset >= 60 then "Active: 61-90" else if offset >= 30 then "Active: 31-60" else "Active: 1-30"
  }

  const PageKeys: set<string> := {"RcCmdPage", "RcCmdOffset", "RcCmdBackup", "RcCmdRestore", "RcCmdPageInfo"}

  /** The fixed part of the update a page fill makes. */
  function FixedUpdates(offset: int, backup: string): Settings
  {
    map["RcCmdPage" := Text(IntString(offset)), "RcCmdOffset" := Number(offset),
        "RcCmdBackup" := Text(backup), "RcCmdRestore" := Text(""),
        "RcCmdPageInfo" := Text(PageLabel(offset))]
  }

  /** The loop of `fillRcCmdPage`: from slot `i` on, each slot of the run is added to the update. */
  function SlotFill(settings: Settings, names: seq<string>, offset: int, i: nat, acc: Settings): Settings
    requires SlotsPresent(settings, i)
    decreases |settings| - i
  {
    if SlotName(i) !in settings then acc
    else
      RunBound(settings, i + 1);
      SlotFill(settings, names, offset, i + 1, acc[SlotName(i) := Text(NameAt(names, offset + i))])
  }

  /** The settings after `fillRcCmdPage(offset)` merges its update into them. */
  function FilledPage(settings: Settings, names: seq<string>, offset: int, backup: string): Settings
  {
    settings + SlotFill(settings, names, offset, 0, FixedUpdates(offset, backup))
  }

  lemma {:induction false} SlotFillEffect(settings: Settings, names: seq<string>, offset: int, i: nat, acc: Settings)
    requires SlotsPresent(settings, i)
    ensures var u := SlotFill(settings, names, offset, i, acc);
      var n := RunLength(settings, i);
      && (forall k :: i <= k < n ==> SlotName(k) in u && u[SlotName(k)] == Text(NameAt(names, offset + k)))
      && (forall key :: key in acc && (forall k :: i <= k < n ==> SlotName(k) != key) ==> key in u && u[key] == acc[key])
      && (forall key :: key in u ==> key in acc || exists k :: i <= k < n && SlotName(k) == key)
    decreases |settings| - i
  {
    if SlotName(i) in settings {
      RunBound(settings, i + 1);
      var acc' := acc[SlotName(i) := Text(NameAt(names, offset + i))];
      SlotFillEffect(settings, names, offset, i + 1, acc');
      forall k: nat | i + 1 <= k
        ensures SlotName(k) != SlotName(i)
      {
        if SlotName(k) == SlotName(i) {
          TagInjective("RcCmd", k, i);
        }
      }
    }
  }

  /** No page key is a slot name: the character after `RcCmd` is a letter. */
  lemma PageKeysAreNotSlots(k: nat)
    ensures SlotName(k) !in PageKeys
  {
    TagNotWord("RcCmd", k, "RcCmdPage");
    TagNotWord("RcCmd", k, "RcCmdOffset");
    TagNotWord("RcCmd", k, "RcCmdBackup");
    TagNotWord("RcCmd", k, "RcCmdRestore");
    TagNotWord("RcCmd", k, "RcCmdPageInfo");
  }

  /**
   * `fillRcCmdPage(offset)`: every slot of the run shows the name at
   * `offset` plus its index, or "" past either end of the list; the page
   * keys get the offset, its text, the store's backup, an empty restore box
   * and the page label; every other setting keeps its value.
   */
  lemma FillPageLayout(settings: Settings, names: seq<string>, offset: int, backup: string)
    ensures var s := FilledPage(settings, names, offset, backup);
      var n := RunLength(settings, 0);
      && s.Keys == settings.Keys + PageKeys
      && s["RcCmdPage"] == Text(IntString(offset)) && s["RcCmdOffset"] == Number(offset)
      && s["RcCmdRestore"] == Text("") && s["RcCmdBackup"] == Text(backup)
      && s["RcCmdPageInfo"] == Text(if offset >= 60 then "Active: 61-90"
                                    else if offset >= 30 then "Active: 31-60" else "Active: 1-30")
      && (forall k :: 0 <= k < n ==>
            s[SlotName(k)] == Text(if 0 <= offset + k < |names| then names[offset + k] else ""))
      && forall key :: key in settings && key !in PageKeys && (forall k :: 0 <= k < n ==> SlotName(k) != key) ==>
           s[key] == settings[key]
  {
    var u := SlotFill(settings, names, offset, 0, FixedUpdates(offset, backup));
    var n := RunLength(settings, 0);
    var s := settings + u;
    FillUpdate(settings, names, offset, backup);
    assert s.Keys == settings.Keys + PageKeys by {
      forall key | key in u
        ensures key in settings || key in PageKeys
      {
        if key !in PageKeys {
          var k :| 0 <= k < n && SlotName(k) == key;
        }
      }
    }
  }

  /** The update `fillRcCmdPage` builds: the page keys, then one entry per slot of the run. */
  lemma FillUpdate(settings: Settings, names: seq<string>, offset: int, backup: string)
    ensures var acc := FixedUpdates(offset, backup);
      var u := SlotFill(settings, names, offset, 0, acc);
      var n := RunLength(settings, 0);
      && (forall key :: key in PageKeys ==> key in u && u[key] == acc[key])
      && (forall k :: 0 <= k < n ==> SlotName(k) in u && u[SlotName(k)] == Text(NameAt(names, offset + k)))
      && (forall key :: key in u ==> key in PageKeys || exists k :: 0 <= k < n && SlotName(k) == key)
  {
    var acc := FixedUpdates(offset, backup);
    var n := RunLength(settings, 0);
    SlotFillEffect(settings, names, offset, 0, acc);
    forall key | key in PageKeys
      ensures forall k :: 0 <= k < n ==> SlotName(k) != key
    {
      forall k | 0 <= k < n
        ensures SlotName(k) != key
      {
        PageKeysAreNotSlots(k);
      }
    }
  }

  /** `getCurrentOffset`: `parseInt(RcCmdPage || RcCmdOffset || 0, 10) || 0`. */
  function CurrentOffset(settings: Settings): int
  {
    var chosen :=
      if "RcCmdPage" in settings && Truthy(settings["RcCmdPage"]) then settings["RcCmdPage"]
      else if "RcCmdOffset" in settings && Truthy(settings["RcCmdOffset"]) then settings["RcCmdOffset"]
      else Number(0);
    ParseIntOrZero(ToText(chosen))
  }

  /**
   * The offset a page fill wrote is the offset read back; with the page
   * text empty or missing, the numeric offset is read.
   */
  lemma CurrentOffsetReads(settings: Settings, names: seq<string>, offset: int, backup: string)
    ensures CurrentOffset(FilledPage(settings, names, offset, backup)) == offset
    ensures (("RcCmdPage" !in settings || settings["RcCmdPage"] == Text(""))
             && "RcCmdOffset" in settings && settings["RcCmdOffset"] == Number(offset)) ==>
      CurrentOffset(settings) == offset
  {
    FillPageLayout(settings, names, offset, backup);
    ParseIntString(offset);
  }

  // ---------------------------------------------------------------- command names

  /** There are no more distinct tags among the names than names. */
  lemma FreeBound(prefix: string, names: seq<string>, lo: nat, hi: nat)
    requires lo <= hi && forall j :: lo <= j < hi ==> Tag(prefix, j) in names
    ensures hi - lo <= |names|
  {
    TagsFit(prefix, lo, hi, set x | x in names);
    DistinctBound(names);
  }

  /** The smallest `k >= i` whose tag is not among the names, given that all from `lo` up to `i` are. */
  function FreeFrom(prefix: string, names: seq<string>, lo: nat, i: nat): (k: nat)
    requires lo <= i && forall j :: lo <= j < i ==> Tag(prefix, j) in names
    ensures i <= k && Tag(prefix, k) !in names
    ensures forall j :: lo <= j < k ==> Tag(prefix, j) in names
    decreases |names| + lo - i
  {
    if Tag(prefix, i) !in names then i
    else
      FreeBound(prefix, names, lo, i + 1);
      FreeFrom(prefix, names, lo, i + 1)
  }

  /** `getNextCmdName`: `cmd<k>` for the smallest `k >= 1` not yet used. */
  function NextCmdName(names: seq<string>): string
  {
    Tag("cmd", FreeFrom("cmd", names, 1, 1))
  }

  /** A name from `getNextCmdName` is new, so the learned code added under it is found by it and the names stay distinct. */
  lemma LearnedNameFresh(store: seq<Command>, data: seq<byte>)
    requires DistinctNames(store)
    ensures NextCmdName(Names(store)) !in Names(store)
    ensures DistinctNames(store + [Command(NextCmdName(Names(store)), data)])
    ensures Lookup(store + [Command(NextCmdName(Names(store)), data)], NextCmdName(Names(store))) == Some(data)
  {
    AddKeepsDistinct(store, NextCmdName(Names(store)), data);
  }

  // ---------------------------------------------------------------- learning

  /** The exchanges of an infrared learning run: enter learning mode, then poll for the code. */
  function IrCapture(c: Cipher, l: Link, red: bool): Run<seq<byte>>
  {
    var enter := Discard(SendPacketRun(c, l, CmdControl, if red then EnterLearningRed else EnterLearning));
    if enter.result.Throw? then Run(Throw(enter.result.error), enter.link)
    else if red then DropTwo(CheckDataRun(c, enter.link, CheckIrRed))
    else CheckDataRun(c, enter.link, CheckIr(enter.link.deviceType))
  }

  /** The settings after a learned command is stored: its slot, then the page at the current offset. */
  function LearnedSettings(settings: Settings, store: seq<Command>, name: string, backup: seq<Command> -> string): Settings
  {
    var s := WithName(settings, name);
    FilledPage(s, Names(store), CurrentOffset(s), backup(store))
  }

  /** Storing a learned command keeps the page the user was on, and shows the new store on it. */
  lemma LearnKeepsPage(settings: Settings, store: seq<Command>, name: string, backup: seq<Command> -> string)
    ensures CurrentOffset(LearnedSettings(settings, store, name, backup)) == CurrentOffset(settings)
    ensures var s := LearnedSettings(settings, store, name, backup);
      "RcCmdBackup" in s && s["RcCmdBackup"] == Text(backup(store))
  {
    var s := WithName(settings, name);
    var r := FirstFree(settings, 0);
    if r.Some? {
      PageKeysAreNotSlots(r.value);
    }
    assert CurrentOffset(s) == CurrentOffset(settings);
    CurrentOffsetReads(s, Names(store), CurrentOffset(s), backup(store));
    FillPageLayout(s, Names(store), CurrentOffset(s), backup(store));
  }

  // ---------------------------------------------------------------- onSettings

  /** What `onSettings` leaves to timers or hands on, in the order it does so. */
  datatype Effect =
    | Refresh(offset: int)             // a deferred `fillRcCmdPage(offset)`
    | SetIp(address: Option<Value>)    // `setIPaddress(newSettings.ipAddress)`
    | Reauthenticate                   // `configure` with a random counter, then authentication

  /** The result of an edit, the store after it and its effects. */
  datatype Edit = Edit(result: Outcome<()>, store: seq<Command>, effects: seq<Effect>)

  predicate IsOffsetKey(key: string)
  {
    key == "RcCmdOffset" || key == "RcCmdPage"
  }

  function Setting(m: Settings, key: string): Option<Value>
  {
    if key in m then Some(m[key]) else None
  }

  /** The effects of a key after its rename and delete rules. */
  function KeyTail(key: string, newSettings: Settings, newName: Value): seq<Effect>
  {
    (if key == "ipAddress" then [SetIp(Setting(newSettings, "ipAddress"))] else [])
    + (if key == "Authenticate" && newName == Flag(true) then [Reauthenticate] else [])
  }

  /** One changed key that is not an offset key; `offset` is the current offset. */
  function KeyStep(store: seq<Command>, offset: int, oldSettings: Settings, newSettings: Settings, key: string): Edit
  {
    var oldName := Get(oldSettings, key);
    var newName := Get(newSettings, key);
    if IsName(newName) then
      if IsName(oldName) then
        if Find(store, newName.s) >= 0 then Edit(Throw(SaveSettingsExist(newName.s)), store, [])
        else
          var renamed := Find(store, oldName.s) >= 0;
          Edit(Ok(()), Rename(store, oldName.s, newName.s),
               (if renamed then [Refresh(offset)] else []) + KeyTail(key, newSettings, newName))
      else Edit(Throw(SaveSettingsNoCmd(newName.s)), store, [])
    else if IsName(oldName) then
      Edit(Ok(()), Delete(store, oldName.s), [Refresh(offset)] + KeyTail(key, newSettings, newName))
    else Edit(Ok(()), store, KeyTail(key, newSettings, newName))
  }

  /** The loop over the changed keys from index `i` on; the first throw ends it, keeping what was done. */
  function KeysRun(store: seq<Command>, effects: seq<Effect>, offset: int, oldSettings: Settings,
                   newSettings: Settings, keys: seq<string>, i: nat): Edit
    requires i <= |keys|
    decreases |keys| - i
  {
    if i == |keys| then Edit(Ok(()), store, effects)
    else if IsOffsetKey(keys[i]) then KeysRun(store, effects, offset, oldSettings, newSettings, keys, i + 1)
    else
      var e := KeyStep(store, offset, oldSettings, newSettings, keys[i]);
      if e.result.Throw? then Edit(e.result, e.store, effects + e.effects)
      else KeysRun(e.store, effects + e.effects, offset, oldSettings, newSettings, keys, i + 1)
  }

  /** Only white space: the text `trim` empties. */
  predicate Blank(s: string)
  {
    forall i :: 0 <= i < |s| ==> IsSpace(s[i])
  }

  /**
   * `onSettings`: `settings` are the settings before the change, and
   * `restored` is what parsing the restore text gives (`None` when it is
   * rejected).
   */
  function OnSettingsRun(store: seq<Command>, settings: Settings, oldSettings: Settings, newSettings: Settings,
                         keys: seq<string>, restored: Option<seq<Command>>): Edit
  {
    var raw := Get(newSettings, "RcCmdRestore");
    var newOffset := CurrentOffset(newSettings);
    if "RcCmdRestore" in keys && !raw.Text? then Edit(Throw(TypeError), store, [])
    else if "RcCmdRestore" in keys && !Blank(raw.s) then
      if restored.None? then Edit(Throw(RestoreFailed), store, [])
      else Edit(Ok(()), restored.value, [Refresh(newOffset)])
    else ChangesRun(store, CurrentOffset(settings), oldSettings, newSettings, keys)
  }

  /**
   * `onSettings` past the restore: a change of the page alone only refreshes
   * it; otherwise the changed keys run, followed by the refresh of a new page.
   */
  function ChangesRun(store: seq<Command>, offset: int, oldSettings: Settings, newSettings: Settings,
                      keys: seq<string>): Edit
  {
    var newOffset := CurrentOffset(newSettings);
    var offsetChanged := exists k :: k in keys && IsOffsetKey(k);
    if offsetChanged && forall k :: k in keys ==> IsOffsetKey(k) then
      Edit(Ok(()), store, [Refresh(newOffset)])
    else
      var e := KeysRun(store, [], offset, oldSettings, newSettings, keys, 0);
      if e.result.Ok? && offsetChanged then e.(effects := e.effects + [Refresh(newOffset)]) else e
  }

  /** A change of the page alone renames and deletes nothing: it only schedules the refresh of the page. */
  lemma OffsetOnly(store: seq<Command>, settings: Settings, oldSettings: Settings, newSettings: Settings,
                   keys: seq<string>, restored: Option<seq<Command>>)
    requires |keys| > 0 && forall k :: k in keys ==> IsOffsetKey(k)
    ensures OnSettingsRun(store, settings, oldSettings, newSettings, keys, restored) ==
      Edit(Ok(()), store, [Refresh(CurrentOffset(newSettings))])
  {
    assert keys[0] in keys;
    assert !IsOffsetKey("RcCmdRestore");
    assert "RcCmdRestore" !in keys;
  }

  /**
   * The rules for one changed slot: a rename onto a stored name throws
   * `save_settings_exist`; a name typed into an empty slot throws
   * `save_settings_nocmd`; an emptied slot deletes its old name; otherwise
   * the command is renamed. A throw leaves the store as it was.
   */
  lemma KeyStepRules(store: seq<Command>, offset: int, oldSettings: Settings, newSettings: Settings, key: string)
    ensures var e := KeyStep(store, offset, oldSettings, newSettings, key);
      var o := Get(oldSettings, key);
      var n := Get(newSettings, key);
      && (e.result.Throw? ==> e.store == store && e.effects == [])
      && (IsName(o) && IsName(n) ==>
            (e.result == Throw(SaveSettingsExist(n.s)) <==> n.s in Names(store))
            && (n.s !in Names(store) ==> e.result.Ok? && e.store == Rename(store, o.s, n.s)))
      && (!IsName(o) && IsName(n) ==> e.result == Throw(SaveSettingsNoCmd(n.s)))
      && (IsName(o) && !IsName(n) ==> e.result.Ok? && e.store == Delete(store, o.s))
      && (!IsName(o) && !IsName(n) ==> e.result.Ok? && e.store == store)
      && (key == "ipAddress" && e.result.Ok? ==> SetIp(Setting(newSettings, "ipAddress")) in e.effects)
  {
    var n := Get(newSettings, key);
    if IsName(n) {
      if Find(store, n.s) >= 0 {
        assert Names(store)[Find(store, n.s)] == n.s;
      }
      if n.s in Names(store) {
        var k :| 0 <= k < |store| && Names(store)[k] == n.s;
        assert store[k].name == n.s;
      }
    }
  }

  lemma KeyStepKeepsDistinct(store: seq<Command>, offset: int, oldSettings: Settings, newSettings: Settings, key: string)
    requires DistinctNames(store)
    ensures DistinctNames(KeyStep(store, offset, oldSettings, newSettings, key).store)
  {
    var o := Get(oldSettings, key);
    var n := Get(newSettings, key);
    if IsName(n) && IsName(o) && Find(store, n.s) < 0 {
      RenameKeepsDistinct(store, o.s, n.s);
    } else if !IsName(n) && IsName(o) {
      DeleteKeepsDistinct(store, o.s);
    }
  }

  lemma {:induction false} KeysRunKeepsDistinct(store: seq<Command>, effects: seq<Effect>, offset: int,
                                              oldSettings: Settings, newSettings: Settings, keys: seq<string>, i: nat)
    requires i <= |keys| && DistinctNames(store)
    ensures DistinctNames(KeysRun(store, effects, offset, oldSettings, newSettings, keys, i).store)
    decreases |keys| - i
  {
    if i < |keys| {
      if IsOffsetKey(keys[i]) {
        KeysRunKeepsDistinct(store, effects, offset, oldSettings, newSettings, keys, i + 1);
      } else {
        var e := KeyStep(store, offset, oldSettings, newSettings, keys[i]);
        KeyStepKeepsDistinct(store, offset, oldSettings, newSettings, keys[i]);
        if e.result.Ok? {
          KeysRunKeepsDistinct(e.store, effects + e.effects, offset, oldSettings, newSettings, keys, i + 1);
        }
      }
    }
  }

  /**
   * No edit of the settings gives two commands the same name (a restore
   * brings in whatever list it was given).
   */
  lemma OnSettingsKeepsDistinct(store: seq<Command>, settings: Settings, oldSettings: Settings, newSettings: Settings,
                                keys: seq<string>, restored: Option<seq<Command>>)
    requires DistinctNames(store)
    requires restored.Some? ==> DistinctNames(restored.value)
    ensures DistinctNames(OnSettingsRun(store, settings, oldSettings, newSettings, keys, restored).store)
  {
    KeysRunKeepsDistinct(store, [], CurrentOffset(settings), oldSettings, newSettings, keys, 0);
  }

  /**
   * A restore text that is not blank replaces the whole store with the
   * parsed list, or throws when it does not parse; a value that is not text
   * cannot be trimmed and throws.
   */
  lemma RestoreRules(store: seq<Command>, settings: Settings, oldSettings: Settings, newSettings: Settings,
                     keys: seq<string>, restored: Option<seq<Command>>)
    requires "RcCmdRestore" in keys
    ensures var e := OnSettingsRun(store, settings, oldSettings, newSettings, keys, restored);
      var raw := Get(newSettings, "RcCmdRestore");
      && (!raw.Text? ==> e == Edit(Throw(TypeError), store, []))
      && (raw.Text? && !Blank(raw.s) && restored.None? ==> e == Edit(Throw(RestoreFailed), store, []))
      && (raw.Text? && !Blank(raw.s) && restored.Some? ==>
            e == Edit(Ok(()), restored.value, [Refresh(CurrentOffset(newSettings))]))
  {
  }

  // ---------------------------------------------------------------- the device

  /** The state an RM3 mini or RM4 pro device keeps for its learned commands. */
  class RcDevice {
    var settings: Settings
    var store: seq<Command>
    /** A learning run is in progress. */
    var learn: bool
    const comm: Communicate
    /** `getData().devtype`: the device type, as decimal text. */
    const devtype: string
    /** The JSON text of the store that the backup setting shows. */
    const backup: seq<Command> -> string

    constructor (comm: Communicate, devtype: string, backup: seq<Command> -> string,
                 settings: Settings, store: seq<Command>)
      ensures this.comm == comm && this.devtype == devtype && this.backup == backup
      ensures this.settings == settings && this.store == store && !learn
    {
      this.comm := comm;
      this.devtype := devtype;
      this.backup := backup;
      this.settings := settings;
      this.store := store;
      learn := false;
    }

    method StoreCmdSetting(name: string)
      modifies this
      ensures settings == WithName(old(settings), name)
      ensures store == old(store) && learn == old(learn)
    {
      var idx := 0;
      while SlotName(idx) in settings
        invariant SlotsPresent(settings, idx)
        invariant FirstFree(settings, idx) == FirstFree(settings, 0)
        invariant settings == old(settings) && store == old(store) && learn == old(learn)
        decreases |settings| - idx
      {
        if Free(settings[SlotName(idx)]) {
          settings := settings[SlotName(idx) := Text(name)];
          return;
        }
        RunBound(settings, idx + 1);
        idx := idx + 1;
      }
    }

    method FillRcCmdPage(offset: int)
      modifies this
      ensures settings == FilledPage(old(settings), Names(store), offset, backup(store))
      ensures store == old(store) && learn == old(learn)
    {
      var snapshot := settings;
      var names := Names(store);
      var updates := FixedUpdates(offset, backup(store));
      ghost var target := SlotFill(snapshot, names, offset, 0, updates);
      var idx := 0;
      while SlotName(idx) in snapshot
        invariant SlotsPresent(snapshot, idx)
        invariant SlotFill(snapshot, names, offset, idx, updates) == target
        invariant store == old(store) && learn == old(learn)
        decreases |snapshot| - idx
      {
        updates := updates[SlotName(idx) := Text(NameAt(names, offset + idx))];
        RunBound(snapshot, idx + 1);
        idx := idx + 1;
      }
      settings := snapshot + updates;
    }

    /** `updateSettings`: the page at the current offset. */
    method UpdateSettings()
      modifies this
      ensures settings == FilledPage(old(settings), Names(store), CurrentOffset(old(settings)), backup(store))
      ensures store == old(store) && learn == old(learn)
    {
      FillRcCmdPage(CurrentOffset(settings));
    }

    method GetNextCmdName() returns (name: string)
      ensures name == NextCmdName(Names(store))
      ensures name !in Names(store)
    {
      var names := Names(store);
      var idx := 1;
      while Tag("cmd", idx) in names
        invariant 1 <= idx
        invariant forall j :: 1 <= j < idx ==> Tag("cmd", j) in names
        invariant FreeFrom("cmd", names, 1, idx) == FreeFrom("cmd", names, 1, 1)
        decreases |names| + 1 - idx
      {
        FreeBound("cmd", names, 1, idx + 1);
        idx := idx + 1;
      }
      name := Tag("cmd", idx);
    }

    /** `onAutoComplete`: every command name, last stored first. */
    method OnAutoComplete() returns (list: seq<string>)
      ensures |list| == |store|
      ensures forall i :: 0 <= i < |store| ==> list[i] == store[|store| - 1 - i].name
    {
      var names := Names(store);
      list := [];
      var i := |names| - 1;
      while i >= 0
        invariant -1 <= i < |names|
        invariant |list| == |names| - 1 - i
        invariant forall j :: 0 <= j < |list| ==> list[j] == names[|names| - 1 - j]
      {
        list := list + [names[i]];
        i := i - 1;
      }
    }

    /**
     * The learning run of `onCapabilityLearnIR` once its debounce timer
     * fires; `red` chooses the red learning commands.
     */
    method LearnIR(onoff: bool, red: bool) returns (r: bool)
      modifies this, comm
      ensures !onoff ==> r && !learn && store == old(store) && settings == old(settings)
                         && comm.Snapshot() == old(comm.Snapshot())
      ensures onoff && old(learn) ==> !r && learn && store == old(store) && settings == old(settings)
                                      && comm.Snapshot() == old(comm.Snapshot())
      ensures onoff && !old(learn) ==>
        var cap := IrCapture(comm.cipher, old(comm.Snapshot()), red);
        var name := NextCmdName(Names(old(store)));
        && !learn && comm.Snapshot() == cap.link && (r <==> cap.result.Ok?)
        && (cap.result.Throw? ==> store == old(store) && settings == old(settings))
        && (cap.result.Ok? ==>
              store == old(store) + [Command(name, cap.result.value)]
              && settings == LearnedSettings(old(settings), store, name, backup))
    {
      if !onoff {
        learn := false;
        return true;
      }
      if learn {
        return false;
      }
      learn := true;
      var data := CaptureIr(red);
      if data.Throw? {
        learn := false;
        return false;
      }
      StoreLearned(data.value);
      learn := false;
      r := true;
    }

    /** `enter_learning` (or its red form), then the IR poll: either error stops the capture. */
    method CaptureIr(red: bool) returns (data: Outcome<seq<byte>>)
      modifies comm
      ensures Run(data, comm.Snapshot()) == IrCapture(comm.cipher, old(comm.Snapshot()), red)
    {
      var entered: Outcome<()>;
      if red {
        entered := comm.EnterLearningRed();
      } else {
        entered := comm.EnterLearning();
      }
      if entered.Throw? {
        return Throw(entered.error);
      }
      if red {
        data := comm.CheckIRDataRed();
      } else {
        data := comm.CheckIRData();
      }
    }

    /** A learned code stored under the next free name, its slot filled and the page redrawn. */
    method StoreLearned(code: seq<byte>)
      modifies this
      ensures var name := NextCmdName(Names(old(store)));
        && store == old(store) + [Command(name, code)]
        && settings == LearnedSettings(old(settings), store, name, backup)
        && learn == old(learn)
    {
      var name := GetNextCmdName();
      store := store + [Command(name, code)];
      StoreCmdSetting(name);
      FillRcCmdPage(CurrentOffset(settings));
    }

    /** One changed key of `onSettings`: its rename or delete, then its other effects. */
    method ChangeKey(offset: int, oldSettings: Settings, newSettings: Settings, key: string)
      returns (r: Outcome<()>, step: seq<Effect>)
      modifies this
      ensures Edit(r, store, step) == KeyStep(old(store), offset, oldSettings, newSettings, key)
      ensures settings == old(settings) && learn == old(learn)
    {
      var oldName := Get(oldSettings, key);
      var newName := Get(newSettings, key);
      step := [];
      if IsName(newName) {
        if IsName(oldName) {
          if Find(store, newName.s) >= 0 {
            return Throw(SaveSettingsExist(newName.s)), [];
          }
          var renamed := Find(store, oldName.s) >= 0;
          store := Rename(store, oldName.s, newName.s);
          if renamed {
            step := [Refresh(offset)];
          }
        } else {
          return Throw(SaveSettingsNoCmd(newName.s)), [];
        }
      } else if IsName(oldName) {
        store := Delete(store, oldName.s);
        step := [Refresh(offset)];
      }
      var tail: seq<Effect> := [];
      if key == "ipAddress" {
        tail := [SetIp(Setting(newSettings, "ipAddress"))];
      }
      if key == "Authenticate" && newName == Flag(true) {
        tail := tail + [Reauthenticate];
      }
      assert tail == KeyTail(key, newSettings, newName);
      step := step + tail;
      r := Ok(());
    }

    /** The loop of `onSettings` over the changed keys; the first throw ends it. */
    method ApplyKeys(offset: int, oldSettings: Settings, newSettings: Settings, keys: seq<string>)
      returns (r: Outcome<()>, effects: seq<Effect>)
      modifies this
      ensures Edit(r, store, effects) == KeysRun(old(store), [], offset, oldSettings, newSettings, keys, 0)
      ensures settings == old(settings) && learn == old(learn)
    {
      effects := [];
      var i := 0;
      while i < |keys|
        invariant 0 <= i <= |keys|
        invariant settings == old(settings) && learn == old(learn)
        invariant KeysRun(store, effects, offset, oldSettings, newSettings, keys, i)
                  == KeysRun(old(store), [], offset, oldSettings, newSettings, keys, 0)
      {
        var key := keys[i];
        if IsOffsetKey(key) {
          i := i + 1;
          continue;
        }
        var result, step := ChangeKey(offset, oldSettings, newSettings, key);
        if result.Throw? {
          return result, effects + step;
        }
        effects := effects + step;
        i := i + 1;
      }
      r := Ok(());
    }

    /** `onSettings` once the restore is out of the way. */
    method ApplyChanges(offset: int, oldSettings: Settings, newSettings: Settings, keys: seq<string>)
      returns (r: Outcome<()>, effects: seq<Effect>)
      modifies this
      ensures Edit(r, store, effects) == ChangesRun(old(store), offset, oldSettings, newSettings, keys)
      ensures settings == old(settings) && learn == old(learn)
    {
      var offsetChanged := exists k :: k in keys && IsOffsetKey(k);
      var newOffset := CurrentOffset(newSettings);
      if offsetChanged && forall k :: k in keys ==> IsOffsetKey(k) {
        return Ok(()), [Refresh(newOffset)];
      }
      r, effects := ApplyKeys(offset, oldSettings, newSettings, keys);
      if r.Ok? && offsetChanged {
        effects := effects + [Refresh(newOffset)];
      }
    }

    method OnSettings(oldSettings: Settings, newSettings: Settings, changedKeys: seq<string>,
                      restored: Option<seq<Command>>) returns (r: Outcome<()>, effects: seq<Effect>)
      modifies this
      ensures Edit(r, store, effects) ==
        OnSettingsRun(old(store), old(settings), oldSettings, newSettings, changedKeys, restored)
      ensures settings == old(settings) && learn == old(learn)
    {
      effects := [];
      if "RcCmdRestore" in changedKeys {
        var raw := Get(newSettings, "RcCmdRestore");
        if !raw.Text? {
          return Throw(TypeError), [];
        }
        if !Blank(raw.s) {
          if restored.None? {
            return Throw(RestoreFailed), [];
          }
          store := restored.value;
          return Ok(()), [Refresh(CurrentOffset(newSettings))];
        }
      }
      r, effects := ApplyChanges(CurrentOffset(settings), oldSettings, newSettings, changedKeys);
    }
  }
}
