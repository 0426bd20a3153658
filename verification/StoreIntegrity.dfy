/** Referential integrity of the store. SQLite enforces only the uniqueness constraints here; every
    other clause has to be kept by the order and the completeness of the hand-written statements. */
module StoreIntegrity {
  import opened Options
  import opened BackupStateMachine
  import opened CollisionNames
  import opened PairingStore

  ghost predicate BindingsJoin(t: Tables) {
    forall f :: f in t.bindings ==> f in t.folders && t.bindings[f].device in t.devices
  }

  /** A session's device is exactly the device its folder is bound to. */
  ghost predicate SessionsBound(t: Tables) {
    forall s :: s in t.sessions ==>
      t.sessions[s].folder in t.bindings && t.bindings[t.sessions[s].folder].device == t.sessions[s].device
  }

  ghost predicate AssetsBound(t: Tables) {
    forall k :: k in t.assets ==> k.device in t.devices && IsBound(t, k.device)
  }

  ghost predicate Integrity(t: Tables) {
    SchemaOk(t) && BindingsJoin(t) && SessionsBound(t) && AssetsBound(t)
  }

  // ----- what the joins see -----

  /** No live session is lost by the inner joins, and the left join always finds the binding. */
  lemma SessionsSurviveJoins(t: Tables, sid: SessionId)
    requires Integrity(t) && sid in t.sessions
    ensures var s := t.sessions[sid];
            Context(t, sid, s.device).Some? &&
            Context(t, sid, s.device).value.folder == s.folder &&
            Context(t, sid, s.device).value.status == s.status &&
            Context(t, sid, s.device).value.folderState == Some(t.bindings[s.folder].state) &&
            JoinedFolder(t, s.device) == Some(s.folder)
  {
    JoinedFolderIs(t, t.sessions[sid].device, t.sessions[sid].folder);
  }

  /** The state is written by device id and read back by folder id: it is the same row, and nobody
      else's context changes. */
  lemma TransferStateReadBack(t: Tables, sid: SessionId, device: DeviceId, status: SessionStatus, state: string,
                              total: Option<int>, transferred: Option<int>, failed: Option<int>)
    requires Integrity(t) && Context(t, sid, device).Some?
    ensures var t' := WithTransferState(t, sid, device, status, state, total, transferred, failed);
            Context(t', sid, device) ==
              Some(Context(t, sid, device).value.(status := status, folderState := Some(state)))
    ensures var t' := WithTransferState(t, sid, device, status, state, total, transferred, failed);
            forall other, d :: d != device ==> Context(t', other, d) == Context(t, other, d)
  {
    var t' := WithTransferState(t, sid, device, status, state, total, transferred, failed);
    forall other, d | d != device
      ensures Context(t', other, d) == Context(t, other, d)
    {
      if other in t.sessions && t.sessions[other].device == d {
        assert t'.sessions[other] == t.sessions[other];
        assert t.bindings[t.sessions[other].folder].device == d;
      }
    }
  }

  lemma NoStaleRows(t: Tables, device: DeviceId)
    requires Integrity(t)
    ensures StaleFolders(t, device) == {}
  {
    assert forall f :: f !in StaleFolders(t, device);
  }

  // ----- what every operation keeps -----

  lemma DeviceKept(t: Tables, device: DeviceId, row: Device)
    requires Integrity(t)
    ensures Integrity(WithDevice(t, device, row))
  {
    BoundIsAboutBindings(t, WithDevice(t, device, row));
  }

  lemma BoundIsAboutBindings(t: Tables, t': Tables)
    requires forall f :: f in t.bindings ==> f in t'.bindings && t'.bindings[f].device == t.bindings[f].device
    ensures forall d :: IsBound(t, d) ==> IsBound(t', d)
  {
    forall d | IsBound(t, d)
      ensures IsBound(t', d)
    {
      var f :| f in t.bindings && t.bindings[f].device == d;
      assert f in t'.bindings && t'.bindings[f].device == d;
    }
  }

  lemma FolderKept(t: Tables, folder: FolderId, path: string)
    requires Integrity(t) && folder !in t.folders
    ensures Integrity(WithFolder(t, folder, path))
  {
    BoundIsAboutBindings(t, WithFolder(t, folder, path));
  }

  lemma DeviceStateKept(t: Tables, device: DeviceId, state: string)
    requires Integrity(t)
    ensures Integrity(WithDeviceState(t, device, state))
  {
    BoundIsAboutBindings(t, WithDeviceState(t, device, state));
  }

  lemma CountersKept(t: Tables, sid: SessionId, row: Session)
    requires Integrity(t) && sid in t.sessions && row.device == t.sessions[sid].device && row.folder == t.sessions[sid].folder
    ensures Integrity(t.(sessions := t.sessions[sid := row]))
  {
    BoundIsAboutBindings(t, t.(sessions := t.sessions[sid := row]));
  }

  lemma TransferStateKept(t: Tables, sid: SessionId, device: DeviceId, status: SessionStatus, state: string,
                          total: Option<int>, transferred: Option<int>, failed: Option<int>)
    requires Integrity(t)
    ensures Integrity(WithTransferState(t, sid, device, status, state, total, transferred, failed))
  {
    if sid in t.sessions && t.sessions[sid].device == device {
      var s := t.sessions[sid];
      var row := s.(status := status, total := OrElse(total, s.total), transferred := OrElse(transferred, s.transferred),
                    failed := OrElse(failed, s.failed));
      CountersKept(t, sid, row);
      DeviceStateKept(t.(sessions := t.sessions[sid := row]), device, state);
    } else {
      DeviceStateKept(t, device, state);
    }
  }

  lemma OneMoreKept(t: Tables, sid: SessionId, device: DeviceId)
    requires Integrity(t)
    ensures Integrity(WithOneMoreTransferred(t, sid, device))
  {
    BoundIsAboutBindings(t, WithOneMoreTransferred(t, sid, device));
  }

  lemma AssetKept(t: Tables, sid: SessionId, key: AssetKey, row: Asset)
    requires Integrity(t) && Context(t, sid, key.device).Some?
    ensures Integrity(WithAsset(t, key, row))
  {
    BoundIsAboutBindings(t, WithAsset(t, key, row));
    assert t.bindings[t.sessions[sid].folder].device == key.device;
  }

  lemma SessionKept(t: Tables, sid: SessionId, device: DeviceId, folder: FolderId)
    requires Integrity(t) && folder in t.bindings && t.bindings[folder].device == device
    ensures Integrity(WithSession(t, sid, device, folder))
  {
    BoundIsAboutBindings(t, WithSession(t, sid, device, folder));
  }

  /** Deleting folders removes exactly the rows of the devices bound to them: no row that mentions such a
      device or folder is left in any table, and every row of every other device is untouched. */
  lemma DeletionIsExact(t: Tables, paths: set<string>)
    requires Integrity(t)
    ensures var t' := WithoutFolders(t, paths); var gone := BoundDevices(t, FolderIds(t, paths));
            && Integrity(t')
            && (forall f :: f in t'.folders <==> f in t.folders && t.folders[f] !in paths)
            && (forall d :: d in t'.devices <==> d in t.devices && d !in gone)
            && (forall f :: f in t'.bindings <==> f in t.bindings && t.folders[f] !in paths)
            && (forall s :: s in t'.sessions <==> s in t.sessions && t.sessions[s].device !in gone)
            && (forall s :: s in t'.sessions <==> s in t.sessions && t.folders[t.sessions[s].folder] !in paths)
            && (forall k :: k in t'.assets <==> k in t.assets && k.device !in gone)
            && (forall f :: f in t'.bindings ==> t'.bindings[f] == t.bindings[f])
            && (forall s :: s in t'.sessions ==> t'.sessions[s] == t.sessions[s])
            && (forall k :: k in t'.assets ==> t'.assets[k] == t.assets[k])
  {
    DeletionLeavesNoTrace(t, paths);
    BoundDevicesGo(t, paths);
    DeletionKeepsIntegrity(t, paths);
  }

  /** A device goes exactly when its folder does. */
  lemma BoundDevicesGo(t: Tables, paths: set<string>)
    requires Integrity(t)
    ensures forall f :: f in t.bindings ==>
              (t.bindings[f].device in BoundDevices(t, FolderIds(t, paths)) <==> t.folders[f] in paths)
  {
  }

  lemma DeletionKeepsIntegrity(t: Tables, paths: set<string>)
    requires Integrity(t)
    ensures Integrity(WithoutFolders(t, paths))
  {
    var t' := WithoutFolders(t, paths);
    BoundDevicesGo(t, paths);
    forall k | k in t'.assets
      ensures IsBound(t', k.device)
    {
      var f :| f in t.bindings && t.bindings[f].device == k.device;
      assert f in t'.bindings && t'.bindings[f].device == k.device;
    }
  }

  /** Also in a store that is not sound: nothing that is left mentions a deleted folder or a device that was bound to
      one, and whatever mentions neither is left as it was. */
  lemma DeletionLeavesNoTrace(t: Tables, paths: set<string>)
    ensures var t' := WithoutFolders(t, paths); var gone := BoundDevices(t, FolderIds(t, paths));
            var deleted := (f: FolderId) => f in t.folders && t.folders[f] in paths;
            && (forall f :: f in t'.folders <==> f in t.folders && !deleted(f))
            && (forall d :: d in t'.devices <==> d in t.devices && d !in gone)
            && (forall f :: f in t'.bindings <==> f in t.bindings && !deleted(f) && t.bindings[f].device !in gone)
            && (forall s :: s in t'.sessions <==>
                  s in t.sessions && !deleted(t.sessions[s].folder) && t.sessions[s].device !in gone)
            && (forall k :: k in t'.assets <==> k in t.assets && k.device !in gone)
            && (forall f :: f in t'.folders ==> t'.folders[f] == t.folders[f])
            && (forall d :: d in t'.devices ==> t'.devices[d] == t.devices[d])
            && (forall f :: f in t'.bindings ==> t'.bindings[f] == t.bindings[f])
            && (forall s :: s in t'.sessions ==> t'.sessions[s] == t.sessions[s])
            && (forall k :: k in t'.assets ==> t'.assets[k] == t.assets[k])
  {
  }

  lemma JoinedIffBound(t: Tables, device: DeviceId)
    requires Integrity(t)
    ensures JoinedFolder(t, device).Some? <==> IsBound(t, device)
  {
    if IsBound(t, device) {
      var f :| f in t.bindings && t.bindings[f].device == device;
      JoinedFolderIs(t, device, f);
    }
  }

  /** The pairing path without repair: the folder found or made is bound to the device, nothing raises,
      and nobody else's rows change. */
  lemma FolderForKept(t: Tables, root: string, base: string, device: DeviceId, newId: FolderId)
    requires Integrity(t) && device in t.devices && newId !in t.folders
    ensures var o := FolderFor(t, root, base, device, newId);
            && o.FolderRecord? && Integrity(o.tables)
            && o.folder in o.tables.bindings && o.tables.bindings[o.folder] == Binding(device, STATE_PAIRED)
            && o.folder in o.tables.folders && o.tables.folders[o.folder] == o.path
            && (o.reused <==> IsBound(t, device))
            && (!o.reused ==> o.folder == newId && o.path !in t.folders.Values
                              && o.path == UniqueFolderPath(t.folders.Values, root, base, device))
            && (o.reused ==> o.tables.folders == t.folders && o.folder in t.bindings && t.bindings[o.folder].device == device)
            && o.tables.devices == t.devices && o.tables.sessions == t.sessions && o.tables.assets == t.assets
            && (forall f :: f in t.bindings && t.bindings[f].device != device ==>
                  f in o.tables.bindings && o.tables.bindings[f] == t.bindings[f])
            && (forall f :: f in t.folders ==> f in o.tables.folders && o.tables.folders[f] == t.folders[f])
            && (forall f :: f in t.bindings ==> f in o.tables.bindings && o.tables.bindings[f].device == t.bindings[f].device)
  {
    NoStaleRows(t, device);
    JoinedIffBound(t, device);
    var o := FolderFor(t, root, base, device, newId);
    match JoinedFolder(t, device) {
      case Some(f) =>
        DeviceStateKept(t, device, STATE_PAIRED);
      case None =>
        UniqueFolderPathIsFree(t.folders.Values, root, base, device);
        BoundIsAboutBindings(t, o.tables);
    }
  }

  // ----- repair -----

  /** The condition a caller can check before repairing: the selected folder is still bound, and rebinding
      it strands nobody, neither the previous device elsewhere nor a third device's rows. */
  ghost predicate SafeToRepair(t: Tables, folder: FolderId, previous: DeviceId, replacement: DeviceId) {
    && folder in t.bindings
    && (IsBound(t, previous) ==> t.bindings[folder].device == previous)
    && (t.bindings[folder].device != previous && t.bindings[folder].device != replacement ==>
          (forall s :: s in t.sessions ==> t.sessions[s].device != t.bindings[folder].device) &&
          (forall k :: k in t.assets ==> k.device != t.bindings[folder].device))
  }

  lemma NoRowsWhenUnbound(t: Tables, device: DeviceId)
    requires Integrity(t) && !IsBound(t, device)
    ensures forall s :: s in t.sessions ==> t.sessions[s].device != device
    ensures forall k :: k in t.assets ==> k.device != device
  {
    forall s | s in t.sessions
      ensures t.sessions[s].device != device
    {
      assert t.bindings[t.sessions[s].folder].device == t.sessions[s].device;
    }
  }

  lemma ReboundAssetsOf(assets: map<AssetKey, Asset>, previous: DeviceId, replacement: DeviceId)
    requires previous != replacement
    requires forall k :: k in assets ==> k.device != replacement
    ensures var a := ReboundAssets(assets, previous, replacement);
            && (forall k :: k in a ==> k.device != previous)
            && (forall id :: AssetKey(replacement, id) in a <==> AssetKey(previous, id) in assets)
            && (forall id :: AssetKey(replacement, id) in a ==>
                  a[AssetKey(replacement, id)] == assets[AssetKey(previous, id)])
            && (forall k: AssetKey :: k.device != previous && k.device != replacement ==>
                  (k in a <==> k in assets) && (k in a ==> a[k] == assets[k]))
  {
    var a := ReboundAssets(assets, previous, replacement);
    forall id
      ensures AssetKey(replacement, id) in a <==> AssetKey(previous, id) in assets
    {
      assert AssetKey(previous, id).asset == id;
    }
  }

  /** Repair is a lossless rebinding. When it does not raise, the replacement device owns exactly the
      asset records and the sessions the previous device had, still in the same folder and under the same
      relative paths, so every record names the same file; no table mentions the previous device; all
      other rows are untouched; and no uniqueness constraint is violated on the way. */
  lemma RepairIsLossless(t: Tables, folder: FolderId, previous: DeviceId, replacement: DeviceId)
    requires Integrity(t) && replacement in t.devices && previous != replacement
    requires folder in t.bindings && t.bindings[folder].device == previous
    requires RepairedStore(t, folder, previous, replacement).Repaired?
    ensures var t' := RepairedStore(t, folder, previous, replacement).tables;
            && Integrity(t') && t'.folders == t.folders
            && t'.bindings == t.bindings[folder := Binding(replacement, STATE_PAIRED)]
            && previous !in t'.devices
            && (forall f :: f in t'.bindings ==> t'.bindings[f].device != previous)
            && (forall s :: s in t'.sessions ==> t'.sessions[s].device != previous)
            && (forall k :: k in t'.assets ==> k.device != previous)
            && t'.sessions.Keys == t.sessions.Keys
            && (forall s :: s in t.sessions && t.sessions[s].device == previous ==>
                  t'.sessions[s] == t.sessions[s].(device := replacement))
            && (forall s :: s in t.sessions && t.sessions[s].device != previous ==> t'.sessions[s] == t.sessions[s])
            && (forall s :: s in t.sessions ==> t'.sessions[s].folder == t.sessions[s].folder)
            && (forall id :: AssetKey(replacement, id) in t'.assets <==> AssetKey(previous, id) in t.assets)
            && (forall id :: AssetKey(replacement, id) in t'.assets ==>
                  t'.assets[AssetKey(replacement, id)] == t.assets[AssetKey(previous, id)])
            && (forall k: AssetKey :: k.device != previous && k.device != replacement ==>
                  (k in t'.assets <==> k in t.assets) && (k in t.assets ==> t'.assets[k] == t.assets[k]))
  {
    var t' := RepairedStore(t, folder, previous, replacement).tables;
    assert !IsBound(t, replacement);
    NoRowsWhenUnbound(t, replacement);
    ReboundAssetsOf(t.assets, previous, replacement);
    forall k | k in t'.assets
      ensures k.device in t'.devices && IsBound(t', k.device)
    {
      if k.device == replacement {
        assert folder in t'.bindings && t'.bindings[folder].device == replacement;
      } else {
        assert k in t.assets;
        var f :| f in t.bindings && t.bindings[f].device == k.device;
        assert f in t'.bindings && t'.bindings[f].device == k.device;
      }
    }
  }

  /** Also in a store that is not sound: every session of the previous device is afterwards found for the replacement,
      in the repaired folder and with its status, also one that was in another folder. */
  lemma RepairedSessionIsFound(t: Tables, folder: FolderId, previous: DeviceId, replacement: DeviceId, sid: SessionId)
    requires previous != replacement && RepairedStore(t, folder, previous, replacement).Repaired?
    requires replacement in t.devices && folder in t.folders && sid in t.sessions && t.sessions[sid].device == previous
    ensures var found := Context(RepairedStore(t, folder, previous, replacement).tables, sid, replacement);
            found.Some? && found.value.folder == folder && found.value.folderPath == t.folders[folder]
            && found.value.status == t.sessions[sid].status
            && (folder in t.bindings ==> found.value.folderState == Some("paired"))
  {
  }

  lemma RepairOfUnboundIs(t: Tables, folder: FolderId, previous: DeviceId, replacement: DeviceId)
    requires Integrity(t) && previous != replacement && folder in t.bindings && !IsBound(t, previous)
    requires RepairedStore(t, folder, previous, replacement).Repaired?
    ensures RepairedStore(t, folder, previous, replacement).tables ==
            t.(devices := t.devices - {previous}, bindings := t.bindings[folder := Binding(replacement, STATE_PAIRED)])
    ensures !RepairConflict(t, folder, replacement)
  {
    var t' := RepairedStore(t, folder, previous, replacement).tables;
    NoRowsWhenUnbound(t, previous);
    assert t'.assets == t.assets;
    assert t'.sessions == t.sessions;
    assert t'.bindings == t.bindings[folder := Binding(replacement, STATE_PAIRED)];
  }

  /** Rebinding a folder that the previous device no longer holds, when nobody is stranded. */
  lemma RepairOfUnboundKept(t: Tables, folder: FolderId, previous: DeviceId, replacement: DeviceId)
    requires Integrity(t) && replacement in t.devices && previous != replacement
    requires SafeToRepair(t, folder, previous, replacement) && !IsBound(t, previous)
    requires RepairedStore(t, folder, previous, replacement).Repaired?
    ensures Integrity(RepairedStore(t, folder, previous, replacement).tables)
  {
    RepairOfUnboundIs(t, folder, previous, replacement);
    RebindingKept(t, t.(devices := t.devices - {previous}, bindings := t.bindings[folder := Binding(replacement, STATE_PAIRED)]),
                  folder, previous, replacement);
  }

  lemma RebindingKept(t: Tables, t': Tables, folder: FolderId, previous: DeviceId, replacement: DeviceId)
    requires Integrity(t) && replacement in t.devices && previous != replacement && folder in t.bindings
    requires SafeToRepair(t, folder, previous, replacement) && !IsBound(t, previous)
    requires !RepairConflict(t, folder, replacement)
    requires t' == t.(devices := t.devices - {previous}, bindings := t.bindings[folder := Binding(replacement, STATE_PAIRED)])
    ensures Integrity(t')
  {
    NoRowsWhenUnbound(t, previous);
    forall k | k in t'.assets
      ensures k.device in t'.devices && IsBound(t', k.device)
    {
      var f :| f in t.bindings && t.bindings[f].device == k.device;
      assert f in t'.bindings && t'.bindings[f].device == k.device;
    }
  }

  lemma UnsafeRepairBreaks(t: Tables, sid: SessionId, folder: FolderId, previous: DeviceId, replacement: DeviceId)
    requires Integrity(t) && previous != replacement
    requires RepairedStore(t, folder, previous, replacement).Repaired?
    requires !SafeToRepair(t, folder, previous, replacement) && sid !in t.sessions
    ensures !Integrity(WithSession(RepairedStore(t, folder, previous, replacement).tables, sid, replacement, folder))
  {
    var r := RepairedStore(t, folder, previous, replacement).tables;
    var t' := WithSession(r, sid, replacement, folder);
    if folder !in t.bindings {
      assert t'.sessions[sid].folder !in t'.bindings;
    } else if IsBound(t, previous) && t.bindings[folder].device != previous {
      var g :| g in t.bindings && t.bindings[g].device == previous;
      assert t'.bindings[g].device !in t'.devices;
    } else {
      var third := t.bindings[folder].device;
      if s :| s in t.sessions && t.sessions[s].device == third {
        assert t'.sessions[s] == t.sessions[s];
      } else {
        var k :| k in t.assets && k.device == third;
        assert k in t'.assets;
        assert !IsBound(t', third);
      }
    }
  }

  /** Exactly when an acceptance that repairs keeps the store sound. The code does not check this
      condition: it decides on a binding read when the session was started. */
  lemma RepairSoundIff(t: Tables, sid: SessionId, folder: FolderId, previous: DeviceId, replacement: DeviceId)
    requires Integrity(t) && replacement in t.devices && previous != replacement && sid !in t.sessions
    requires RepairedStore(t, folder, previous, replacement).Repaired?
    ensures Integrity(WithSession(RepairedStore(t, folder, previous, replacement).tables, sid, replacement, folder))
       <==> SafeToRepair(t, folder, previous, replacement)
  {
    var r := RepairedStore(t, folder, previous, replacement).tables;
    if SafeToRepair(t, folder, previous, replacement) {
      if IsBound(t, previous) {
        RepairIsLossless(t, folder, previous, replacement);
      } else {
        RepairOfUnboundKept(t, folder, previous, replacement);
      }
      SessionKept(r, sid, replacement, folder);
    } else {
      UnsafeRepairBreaks(t, sid, folder, previous, replacement);
    }
  }

  /** The stale-row branch, which a sound store never takes. If it is taken, the clean-up deletes the
      device row written a moment before, and the new session is invisible to every transfer request:
      a pairing through `get_or_create_mobile_folder` yields a usable session exactly when no stale
      row was there. */
  lemma PairedSessionUsableIff(t: Tables, sid: SessionId, root: string, base: string, device: DeviceId,
                               row: Device, newId: FolderId)
    requires SchemaOk(t) && newId !in t.folders && sid !in t.sessions
    requires FolderFor(WithDevice(t, device, row), root, base, device, newId).FolderRecord?
    ensures var o := FolderFor(WithDevice(t, device, row), root, base, device, newId);
            (Context(WithSession(o.tables, sid, device, o.folder), sid, device).Some? <==> StaleFolders(t, device) == {})
  {
    var t0 := WithDevice(t, device, row);
    var stale := StaleFolders(t0, device);
    assert stale == StaleFolders(t, device);
    var o := FolderFor(t0, root, base, device, newId);
    if f :| f in stale {
      assert device in BoundDevices(t0, stale);
      assert device !in WithoutDeviceData(t0, stale).devices;
      assert device !in o.tables.devices;
    } else {
      assert forall g :: g !in StaleFolders(t0, device);
      UniqueFolderPathIsFree(t0.folders.Values, root, base, device);
    }
  }
}
