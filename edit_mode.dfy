/** The edit-mode provider: a flag saying whether the page is being edited, the snapshot taken
    on entering edit mode, and the transitions that load, save and restore the document. */
module EditMode {
  import opened Wrappers
  import opened Json
  import opened Document

  /** `JSON.parse(JSON.stringify(pd || {}))`: the deep copy the provider snapshots and saves.
      It is truthy, has no holes, and equals the document whenever the document has none. */
  function Snapshot(pd: Option<Json>): (s: Json)
    ensures Truthy(Some(s)) && NoHoles(s)
    ensures NoHoles(OrEmpty(pd)) ==> s == OrEmpty(pd)
  {
    var d := OrEmpty(pd);
    NormalizeHasNoHoles(d);
    if NoHoles(d) then NormalizeFixesHoleFree(d); Normalize(d) else Normalize(d)
  }

  /** The document after the mount effect: the saved value when the slot holds text that
      parses, and otherwise the document as it was. */
  function Loaded(storage: map<string, Option<Json>>, pd: Option<Json>): Option<Json> {
    if StorageKey in storage && storage[StorageKey].Some? then storage[StorageKey] else pd
  }

  /** A save followed by a reload brings back the saved copy, and saving again at once stores
      that same copy: the saved document is a fixed point of save-and-reload. */
  lemma SaveReloadStable(storage: map<string, Option<Json>>, pd: Option<Json>, other: Option<Json>)
    ensures var saved := storage[StorageKey := Some(Snapshot(pd))];
            && Loaded(saved, other) == Some(Snapshot(pd))
            && Snapshot(Loaded(saved, other)) == Snapshot(pd)
  {
    NormalizeIdempotent(OrEmpty(pd));
  }

  class Provider {
    const win: Window
    var isEditMode: bool
    /** The snapshot; `None` for the initial `null`. */
    var originalData: Option<Json>

    constructor (win: Window)
      ensures this.win == win && !isEditMode && originalData == None
    {
      this.win := win;
      isEditMode := false;
      originalData := None;
    }

    /** The mount effect: the saved document, when it parses, replaces the current one. */
    method Mount()
      modifies win
      ensures win.portfolioData == Loaded(old(win.storage), old(win.portfolioData))
      ensures win.storage == old(win.storage)
    {
      if StorageKey in win.storage {
        var parsed := win.storage[StorageKey];
        if parsed.Some? {
          win.portfolioData := parsed;
        }
      }
    }

    /** Entering edit mode snapshots the document; the flag always flips. */
    method Toggle()
      modifies this
      ensures isEditMode == !old(isEditMode)
      ensures originalData == if old(isEditMode) then old(originalData) else Some(Snapshot(win.portfolioData))
    {
      if !isEditMode {
        originalData := Some(Snapshot(win.portfolioData));
      }
      isEditMode := !isEditMode;
    }

    /** `saveChanges`: the serialised document goes to the storage first; when `setItem` throws
        (`storageOk` false, as on a full quota) nothing else happens. Otherwise `pushed` is sent
        to the repository, whose outcome is `remoteSuccess`. Edit mode ends only when both
        succeed; otherwise `failed` reports the rethrown error. */
    method Save(storageOk: bool, remoteSuccess: bool) returns (pushed: Option<Json>, failed: bool)
      modifies this, win
      ensures win.storage == if storageOk then old(win.storage)[StorageKey := Some(Snapshot(old(win.portfolioData)))]
                             else old(win.storage)
      ensures pushed == (if storageOk then Some(OrEmpty(old(win.portfolioData))) else None)
      ensures win.portfolioData == old(win.portfolioData)
      ensures failed == !(storageOk && remoteSuccess)
      ensures isEditMode == (old(isEditMode) && failed)
      ensures originalData == old(originalData)
    {
      var portfolioData := OrEmpty(win.portfolioData);
      if !storageOk {
        pushed, failed := None, true;
        return;
      }
      win.storage := win.storage[StorageKey := Some(Snapshot(win.portfolioData))];
      pushed := Some(portfolioData);
      if remoteSuccess {
        isEditMode := false;
        failed := false;
      } else {
        failed := true;
      }
    }

    /** `cancelChanges`: the snapshot, when there is one, replaces the document; edit mode ends. */
    method Cancel()
      modifies this, win
      ensures win.portfolioData == if Truthy(old(originalData)) then old(originalData) else old(win.portfolioData)
      ensures !isEditMode && originalData == old(originalData) && win.storage == old(win.storage)
    {
      if Truthy(originalData) {
        win.portfolioData := originalData;
      }
      isEditMode := false;
    }
  }
}
