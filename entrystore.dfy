/**
 * The integration's slot in the host's shared data, `hass.data[DOMAIN]`: a dict from config
 * entry id to that entry's data, filled by `async_setup_entry` and emptied by
 * `async_unload_entry`. Forwarding to and unloading of the sensor platform are host calls and
 * are not part of this model.
 */
module EntryStore {
  import Setup

  /** How `async_unload_entry` ends: True, or a KeyError from `pop` on an id that is not stored. */
  datatype UnloadOutcome = Unloaded | RaisedKeyError

  class DomainData {
    /** `hass.data[DOMAIN]`. Before the first setup the slot is absent, and unloading then raises
        KeyError at the subscript `hass.data[DOMAIN]` before `pop` runs; an empty map gives the
        same outcome, a KeyError with nothing changed. */
    var entries: map<string, Setup.Entry>

    constructor ()
      ensures entries == map[]
    {
      entries := map[];
    }

    /** `async_setup_entry`: stores the entry's data under its id, replacing earlier data. */
    method SetupEntry(entryId: string, data: Setup.Entry) returns (ok: bool)
      modifies this
      ensures ok
      ensures entries == old(entries)[entryId := data]
    {
      entries := entries[entryId := data];
      ok := true;
    }

    /** `async_unload_entry`: removes the id; `pop` without a default raises on a missing id. */
    method UnloadEntry(entryId: string) returns (outcome: UnloadOutcome)
      modifies this
      ensures entryId in old(entries) ==> outcome == Unloaded && entries == old(entries) - {entryId}
      ensures entryId !in old(entries) ==> outcome == RaisedKeyError && entries == old(entries)
    {
      if entryId !in entries {
        return RaisedKeyError;
      }
      entries := entries - {entryId};
      outcome := Unloaded;
    }
  }

  /** Setting an entry up and then unloading it removes that id and leaves every other id as it was. */
  method SetupThenUnload(store: DomainData, entryId: string, data: Setup.Entry) returns (outcome: UnloadOutcome)
    modifies store
    ensures outcome == Unloaded
    ensures entryId !in store.entries
    ensures forall k :: k != entryId ==> (k in store.entries <==> k in old(store.entries))
    ensures forall k :: k != entryId && k in store.entries ==> store.entries[k] == old(store.entries)[k]
  {
    var _ := store.SetupEntry(entryId, data);
    outcome := store.UnloadEntry(entryId);
  }
}
