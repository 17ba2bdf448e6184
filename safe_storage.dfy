/**
 * `safeStorage` of src/lib/storage.js: the key/value adapter the store is
 * persisted through. It prefers the browser's `localStorage` and falls back
 * to a module-level in-memory dictionary when there is no window or when
 * `localStorage` throws. Whether a window exists, and whether reading or
 * writing `localStorage` throws, are fixed flags of the environment.
 */
module StorageAdapter {
  import opened Base

  class SafeStorage {
    /** `typeof window !== 'undefined'`. */
    const hasWindow: bool
    /** Reading `window.localStorage` throws (a WebView without storage, say). */
    const readThrows: bool
    /** Writing or removing through `window.localStorage` throws (storage disabled, or its quota exceeded). */
    const writeThrows: bool
    /** The browser's `localStorage`. */
    var local: map<string, string>
    /** The fallback `memoryStorage` dictionary. */
    var memory: map<string, string>

    constructor(hasWindow: bool, readThrows: bool, writeThrows: bool, local: map<string, string>)
      ensures this.hasWindow == hasWindow && this.readThrows == readThrows && this.writeThrows == writeThrows
      ensures this.local == local && memory == map[]
    {
      this.hasWindow := hasWindow;
      this.readThrows := readThrows;
      this.writeThrows := writeThrows;
      this.local := local;
      memory := map[];
    }

    /** `memoryStorage[name] || null`: a missing key and the empty string both read as null. */
    function MemoryLookup(name: string): (r: Option<string>)
      reads this
      ensures r.Some? <==> name in memory && memory[name] != ""
      ensures r.Some? ==> r.value == memory[name]
    {
      if name in memory && memory[name] != "" then Some(memory[name]) else None
    }

    /**
     * `getItem(name)`: without a window, always null; otherwise the
     * `localStorage` value when it can be read and is present, else the
     * fallback dictionary's value.
     */
    function GetItem(name: string): (r: Option<string>)
      reads this
      ensures !hasWindow ==> r == None
      ensures hasWindow && !readThrows && name in local ==> r == Some(local[name])
      ensures hasWindow && (readThrows || name !in local) ==> r == MemoryLookup(name)
    {
      if hasWindow then
        if !readThrows && name in local then Some(local[name])
        else MemoryLookup(name)
      else None
    }

    /**
     * `setItem(name, value)`: writes `localStorage`, or the fallback
     * dictionary when there is no window or the write throws. No other key
     * changes. Reading the key back gives the value when reads and writes
     * reach the same place; when only the write throws, a value still in
     * `localStorage` shadows the one just written to the fallback, and when
     * only the read throws, the write is not seen at all.
     */
    method SetItem(name: string, value: string)
      modifies this
      ensures hasWindow && !writeThrows ==> local == old(local)[name := value] && memory == old(memory)
      ensures !hasWindow || writeThrows ==> memory == old(memory)[name := value] && local == old(local)
      ensures !hasWindow ==> GetItem(name) == None
      ensures hasWindow && !readThrows && !writeThrows ==> GetItem(name) == Some(value)
      ensures hasWindow && writeThrows && (readThrows || name !in local) ==>
        GetItem(name) == (if value == "" then None else Some(value))
      ensures hasWindow && writeThrows && !readThrows && name in local ==> GetItem(name) == Some(local[name])
      ensures hasWindow && readThrows && !writeThrows ==> GetItem(name) == old(MemoryLookup(name))
      ensures forall k :: k != name ==> GetItem(k) == old(GetItem(k))
    {
      if hasWindow {
        if writeThrows {
          memory := memory[name := value];
        } else {
          local := local[name := value];
        }
      } else {
        memory := memory[name := value];
      }
    }

    /**
     * `removeItem(name)`: removes the key from `localStorage` when the
     * removal does not throw, and from the fallback dictionary always.
     * Afterwards the key reads as null unless a `localStorage` entry that
     * could not be removed is still readable; no other key changes.
     */
    method RemoveItem(name: string)
      modifies this
      ensures hasWindow && !writeThrows ==> local == old(local) - {name}
      ensures !hasWindow || writeThrows ==> local == old(local)
      ensures memory == old(memory) - {name}
      ensures !(hasWindow && writeThrows && !readThrows && name in local) ==> GetItem(name) == None
      ensures hasWindow && writeThrows && !readThrows && name in local ==> GetItem(name) == Some(local[name])
      ensures forall k :: k != name ==> GetItem(k) == old(GetItem(k))
    {
      if hasWindow {
        if !writeThrows {
          local := local - {name};
        }
        memory := memory - {name};
      } else {
        memory := memory - {name};
      }
    }
  }
}
