/**
 * The per-step store of group settings of a configuration step: a map from
 * model group name to a map from setting name to a stored value.
 *
 * A (group, setting) key is in one of three states:
 *  - absent: the setting is unset in this step;
 *  - Some(v): the setting holds the real value v;
 *  - None: the setting holds an explicit reset marker (JSON null).
 */
module GroupSettingsStore {

  datatype Option<+T> = None | Some(value: T) {
    function GetOr(default: T): T {
      match this
      case Some(v) => v
      case None => default
    }
  }

  /** What one key holds: a real value, or None for an explicit reset. */
  type StoredValue = Option<real>

  /** Setting name to stored value, for one group. */
  type SettingsMap = map<string, StoredValue>

  /** Group name to that group's settings. */
  type GroupSettings = map<string, SettingsMap>

  /** Python treats an empty group dict as falsy, i.e. as if the group were not there. */
  predicate HasGroup(store: GroupSettings, groupName: string) {
    groupName in store && store[groupName] != map[]
  }

  /**
   * The entry for (groupName, settingName): None when unset, Some(stored)
   * when this store holds a value or a reset marker for it.
   */
  function Lookup(store: GroupSettings, groupName: string, settingName: string): (r: Option<StoredValue>)
    ensures r.Some? <==> groupName in store && settingName in store[groupName]
    ensures r.Some? ==> r.value == store[groupName][settingName]
  {
    if HasGroup(store, groupName) && settingName in store[groupName] then
      Some(store[groupName][settingName])
    else
      None
  }

  /** The names of the groups settings are held for. */
  function GroupNames(store: GroupSettings): (names: set<string>)
    ensures forall g :: g in names <==> g in store
  {
    store.Keys
  }

  /** No group entry is an empty map. */
  ghost predicate NoEmptyGroups(store: GroupSettings) {
    forall g :: g in store ==> store[g] != map[]
  }

  /**
   * Stores `value` under (groupName, settingName), creating the group's
   * map when the group is absent or empty.
   */
  function Put(store: GroupSettings, groupName: string, settingName: string, value: StoredValue): (r: GroupSettings)
    ensures Lookup(r, groupName, settingName) == Some(value)
    ensures forall g, s :: (g != groupName || s != settingName) ==> Lookup(r, g, s) == Lookup(store, g, s)
    ensures r.Keys == store.Keys + {groupName}
    ensures NoEmptyGroups(store) ==> NoEmptyGroups(r)
  {
    var groupMap := if HasGroup(store, groupName) then store[groupName] else map[];
    store[groupName := groupMap[settingName := value]]
  }

  /**
   * Removes (groupName, settingName) and deletes the group's entry once it
   * is empty. A no-op when the group is absent or empty or lacks the key.
   */
  function Remove(store: GroupSettings, groupName: string, settingName: string): (r: GroupSettings)
    ensures Lookup(r, groupName, settingName) == None
    ensures forall g, s :: (g != groupName || s != settingName) ==> Lookup(r, g, s) == Lookup(store, g, s)
    ensures Lookup(store, groupName, settingName) == None ==> r == store
    ensures r.Keys <= store.Keys
    ensures forall g :: g != groupName ==> (g in r <==> g in store)
    ensures groupName in r <==>
      (groupName in store && (store[groupName] == map[] || store[groupName].Keys != {settingName}))
    ensures NoEmptyGroups(store) ==> NoEmptyGroups(r)
  {
    if HasGroup(store, groupName) then
      var groupMap := store[groupName] - {settingName};
      if |groupMap| == 0 then
        assert groupMap == map[];
        store - {groupName}
      else
        assert settingName !in store[groupName] ==> groupMap == store[groupName];
        store[groupName := groupMap]
    else
      store
  }

  /** Drops every setting of one group. */
  function RemoveGroup(store: GroupSettings, groupName: string): (r: GroupSettings)
    ensures groupName !in r
    ensures forall s :: Lookup(r, groupName, s) == None
    ensures forall g, s :: g != groupName ==> Lookup(r, g, s) == Lookup(store, g, s)
    ensures r.Keys == store.Keys - {groupName}
    ensures NoEmptyGroups(store) ==> NoEmptyGroups(r)
  {
    store - {groupName}
  }

  /** With no empty group, a group is listed exactly when it holds some setting. */
  lemma ListedGroupHoldsASetting(store: GroupSettings, groupName: string)
    requires NoEmptyGroups(store)
    ensures groupName in GroupNames(store) <==> exists s :: Lookup(store, groupName, s).Some?
  {
    if groupName in store {
      var s :| s in store[groupName];
      assert Lookup(store, groupName, s).Some?;
    }
  }
}
