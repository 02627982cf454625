/** The password-protected key manager: a map from key name to entry, the set of names whose
    values are shown, and the save round trip that commits an edited map once the server
    accepts it. `saveKeys` is split at its `await` into the request it starts (the map an
    edit returns) and `FinishSave`. */
module KeysManager {
  import opened Wrappers
  import opened Js

  /** A stored key; `description` is optional in the source and empty when absent. */
  datatype KeyEntry = KeyEntry(name: string, value: string, description: string)

  const BlankEntry := KeyEntry("", "", "")

  /** `{ ...keys, [entry.name]: entry }`: the entry is stored under its name, replacing any
      entry of that name; every other name keeps its entry. */
  function WithKey(keys: map<string, KeyEntry>, entry: KeyEntry): (r: map<string, KeyEntry>)
    ensures r.Keys == keys.Keys + {entry.name} && r[entry.name] == entry
    ensures forall n :: n in keys && n != entry.name ==> r[n] == keys[n]
  {
    keys[entry.name := entry]
  }

  /** A copy of `keys` with `delete updated[name]` applied: exactly that name goes. */
  function WithoutKey(keys: map<string, KeyEntry>, name: string): (r: map<string, KeyEntry>)
    ensures r.Keys == keys.Keys - {name}
    ensures forall n :: n in r ==> r[n] == keys[n]
  {
    keys - {name}
  }

  /** Deleting a name that was just added restores the map when the name was new. */
  lemma AddThenDelete(keys: map<string, KeyEntry>, entry: KeyEntry)
    requires entry.name !in keys
    ensures WithoutKey(WithKey(keys, entry), entry.name) == keys
  {
    var r := WithoutKey(WithKey(keys, entry), entry.name);
    assert r.Keys == keys.Keys;
  }

  /** The visibility toggle on a copy of the set: only `name`'s membership flips. */
  function Toggled(visible: set<string>, name: string): (r: set<string>)
    ensures name in r <==> name !in visible
    ensures forall n :: n != name ==> (n in r <==> n in visible)
  {
    if name in visible then visible - {name} else visible + {name}
  }

  /** Toggling twice restores the set. */
  lemma ToggleTwice(visible: set<string>, name: string)
    ensures Toggled(Toggled(visible, name), name) == visible
  {
  }

  /** What `await res.json()` gave for a save, or that the request or the parse threw. */
  datatype SaveReply = Answered(data: Value) | Threw

  /** `Object.keys(m)`: every name exactly once. Its order (insertion order in JavaScript)
      is not modelled. */
  method KeyNames(m: map<string, KeyEntry>) returns (names: seq<string>)
    ensures forall n :: n in names <==> n in m
    ensures forall i, j :: 0 <= i < j < |names| ==> names[i] != names[j]
    ensures |names| == |m.Keys|
  {
    names := [];
    var rest := m.Keys;
    while rest != {}
      invariant rest <= m.Keys
      invariant forall n :: n in names <==> n in m.Keys - rest
      invariant forall i, j :: 0 <= i < j < |names| ==> names[i] != names[j]
      invariant |names| + |rest| == |m.Keys|
      decreases |rest|
    {
      var k :| k in rest;
      assert k !in names;
      ghost var before := names;
      names := names + [k];
      assert forall i :: 0 <= i < |before| ==> names[i] == before[i] && names[i] in before;
      rest := rest - {k};
    }
  }

  class Manager {
    var isUnlocked: bool
    var password: string
    var keys: map<string, KeyEntry>
    var keyNames: seq<string>
    var error: Value
    var showAddForm: bool
    var newKey: KeyEntry
    var visibleKeys: set<string>

    constructor ()
      ensures !isUnlocked && password == "" && keys == map[] && keyNames == []
      ensures error == Null && !showAddForm && newKey == BlankEntry && visibleKeys == {}
    {
      isUnlocked := false;
      password := "";
      keys := map[];
      keyNames := [];
      error := Null;
      showAddForm := false;
      newKey := BlankEntry;
      visibleKeys := {};
    }

    /** `addKey`: with an empty name or value nothing happens; otherwise the map with the
        new entry is sent to be saved, and the form is reset and hidden. The shown map
        itself changes only when the save succeeds. */
    method AddKey() returns (save: Option<map<string, KeyEntry>>)
      modifies this
      ensures old(newKey.name) == "" || old(newKey.value) == "" ==>
        save == None && newKey == old(newKey) && showAddForm == old(showAddForm)
      ensures old(newKey.name) != "" && old(newKey.value) != "" ==>
        save == Some(WithKey(old(keys), old(newKey))) && newKey == BlankEntry && !showAddForm
      ensures keys == old(keys) && keyNames == old(keyNames) && visibleKeys == old(visibleKeys)
      ensures isUnlocked == old(isUnlocked) && password == old(password) && error == old(error)
    {
      if newKey.name == "" || newKey.value == "" {
        return None;
      }
      save := Some(WithKey(keys, newKey));
      newKey := BlankEntry;
      showAddForm := false;
    }

    /** `deleteKey`: the map without that name is sent to be saved. */
    method DeleteKey(name: string) returns (save: map<string, KeyEntry>)
      ensures save == WithoutKey(keys, name)
    {
      var updated := keys;
      updated := updated - {name};
      return updated;
    }

    /** The part of `saveKeys` after the request: a truthy `data.ok` commits the sent map
        and lists its names; otherwise `error` becomes `data.error || 'Failed to save'`, or
        `Network error` when anything threw (including reading `.ok` of a `null` body). */
    method FinishSave(sent: map<string, KeyEntry>, reply: SaveReply)
      modifies this
      ensures reply.Answered? && !Nullish(reply.data) && Truthy(OptMember(reply.data, "ok")) ==>
        && keys == sent
        && (forall n :: n in keyNames <==> n in sent)
        && (forall i, j :: 0 <= i < j < |keyNames| ==> keyNames[i] != keyNames[j])
        && error == old(error)
      ensures reply.Answered? && !Nullish(reply.data) && !Truthy(OptMember(reply.data, "ok")) ==>
        && keys == old(keys) && keyNames == old(keyNames)
        && error == (if Truthy(OptMember(reply.data, "error")) then OptMember(reply.data, "error")
                     else Str("Failed to save"))
      ensures (reply.Threw? || Nullish(reply.data)) ==>
        keys == old(keys) && keyNames == old(keyNames) && error == Str("Network error")
      ensures isUnlocked == old(isUnlocked) && password == old(password)
      ensures visibleKeys == old(visibleKeys) && newKey == old(newKey)
      ensures showAddForm == old(showAddForm)
    {
      if reply.Threw? || Nullish(reply.data) {
        error := Str("Network error");
        return;
      }
      var data := reply.data;
      if Truthy(OptMember(data, "ok")) {
        keys := sent;
        keyNames := KeyNames(sent);
      } else {
        var e := OptMember(data, "error");
        error := if Truthy(e) then e else Str("Failed to save");
      }
    }

    /** `toggleVisibility`. */
    method ToggleVisibility(name: string)
      modifies this
      ensures visibleKeys == Toggled(old(visibleKeys), name)
      ensures keys == old(keys) && keyNames == old(keyNames) && error == old(error)
      ensures isUnlocked == old(isUnlocked) && password == old(password)
      ensures newKey == old(newKey) && showAddForm == old(showAddForm)
    {
      var newVisible := visibleKeys;
      if name in newVisible {
        newVisible := newVisible - {name};
      } else {
        newVisible := newVisible + {name};
      }
      visibleKeys := newVisible;
    }

    /** The Lock button: locked again, password forgotten, everything else kept. */
    method Lock()
      modifies this
      ensures !isUnlocked && password == ""
      ensures keys == old(keys) && keyNames == old(keyNames) && error == old(error)
      ensures visibleKeys == old(visibleKeys) && newKey == old(newKey)
      ensures showAddForm == old(showAddForm)
    {
      isUnlocked := false;
      password := "";
    }
  }
}
