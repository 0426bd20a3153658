/** The relational store of dt_image_search/mobile/mobile_pairing_store.py, with the folder table of
    dt_image_search/model/dts_db.py. Each table is a map from its primary key; timestamps that nothing
    reads back are dropped. The functions on `Tables` say what an operation does to the whole store;
    the class carries it out statement by statement. */
module PairingStore {
  import opened Options
  import opened BackupStateMachine
  import opened CollisionNames

  type FolderId = int
  type DeviceId = string
  type SessionId = string

  datatype Device = Device(platform: string, name: string, trustKey: string)
  datatype Binding = Binding(device: DeviceId, state: string)
  datatype SessionStatus = Paired | Transferring | Completed | Failed | StoppedByMobile
  datatype Session = Session(device: DeviceId, folder: FolderId, status: SessionStatus,
                             total: int, transferred: int, failed: int)
  datatype AssetKey = AssetKey(device: DeviceId, asset: string)
  datatype Asset = Asset(version: Option<string>, sha1: Option<string>, size: Option<int>,
                         createdAt: Option<string>, path: string)

  datatype Tables = Tables(folders: map<FolderId, string>,
                           devices: map<DeviceId, Device>,
                           bindings: map<FolderId, Binding>,
                           sessions: map<SessionId, Session>,
                           assets: map<AssetKey, Asset>)

  const EMPTY_STORE := Tables(map[], map[], map[], map[], map[])

  datatype TransferContext = TransferContext(status: SessionStatus, folder: FolderId, folderPath: string,
                                             folderState: Option<string>, trustKey: string)

  datatype FolderOutcome =
    | FolderRaised(tables: Tables)
    | FolderRecord(tables: Tables, folder: FolderId, path: string, reused: bool)

  datatype RepairOutcome = RepairRaised | Repaired(tables: Tables)

  // ----- constraints the schema itself enforces -----

  ghost predicate PathsUnique(t: Tables) {
    forall f, g :: f in t.folders && g in t.folders && t.folders[f] == t.folders[g] ==> f == g
  }

  ghost predicate BindingsUnique(t: Tables) {
    forall f, g :: f in t.bindings && g in t.bindings && t.bindings[f].device == t.bindings[g].device ==> f == g
  }

  ghost predicate SchemaOk(t: Tables) {
    PathsUnique(t) && BindingsUnique(t)
  }

  // ----- queries -----

  ghost predicate IsBound(t: Tables, device: DeviceId) {
    exists f :: f in t.bindings && t.bindings[f].device == device
  }

  /** The folder joined to a device, if the binding and its folder row both exist. */
  ghost function JoinedFolder(t: Tables, device: DeviceId): Option<FolderId> {
    if f :| f in t.bindings && f in t.folders && t.bindings[f].device == device then Some(f) else None
  }

  function StaleFolders(t: Tables, device: DeviceId): set<FolderId> {
    set f | f in t.bindings && t.bindings[f].device == device && f !in t.folders
  }

  /** `get_mobile_transfer_context`: inner joins with device and folder, left join with the binding. */
  function Context(t: Tables, sid: SessionId, device: DeviceId): Option<TransferContext> {
    if sid in t.sessions && t.sessions[sid].device == device && device in t.devices &&
       t.sessions[sid].folder in t.folders
    then
      var s := t.sessions[sid];
      Some(TransferContext(s.status, s.folder, t.folders[s.folder],
                           if s.folder in t.bindings then Some(t.bindings[s.folder].state) else None,
                           t.devices[device].trustKey))
    else None
  }

  // ----- effects on the whole store -----

  function WithDevice(t: Tables, device: DeviceId, row: Device): Tables {
    t.(devices := t.devices[device := row])
  }

  function WithFolder(t: Tables, folder: FolderId, path: string): Tables {
    if path in t.folders.Values then t else t.(folders := t.folders[folder := path])
  }

  /** Sets the transfer state of the bindings of one device. */
  function WithDeviceState(t: Tables, device: DeviceId, state: string): Tables {
    t.(bindings := map f | f in t.bindings ::
         if t.bindings[f].device == device then t.bindings[f].(state := state) else t.bindings[f])
  }

  function BoundDevices(t: Tables, ids: set<FolderId>): set<DeviceId> {
    set f | f in ids && f in t.bindings :: t.bindings[f].device
  }

  function BindingsOutside(bindings: map<FolderId, Binding>, ids: set<FolderId>, gone: set<DeviceId>): map<FolderId, Binding> {
    map f | f in bindings && f !in ids && bindings[f].device !in gone :: bindings[f]
  }

  function SessionsOutside(sessions: map<SessionId, Session>, ids: set<FolderId>, gone: set<DeviceId>): map<SessionId, Session> {
    map s | s in sessions && sessions[s].folder !in ids && sessions[s].device !in gone :: sessions[s]
  }

  function AssetsOutside(assets: map<AssetKey, Asset>, gone: set<DeviceId>): map<AssetKey, Asset> {
    map k | k in assets && k.device !in gone :: assets[k]
  }

  /** Everything that belongs to the given folders or to the devices bound to them goes. */
  function WithoutDeviceData(t: Tables, ids: set<FolderId>): Tables {
    var gone := BoundDevices(t, ids);
    t.(devices := t.devices - gone,
       bindings := BindingsOutside(t.bindings, ids, gone),
       sessions := SessionsOutside(t.sessions, ids, gone),
       assets := AssetsOutside(t.assets, gone))
  }

  lemma OutsideInTwoSteps(t: Tables, ids: set<FolderId>, gone: set<DeviceId>)
    ensures BindingsOutside(BindingsOutside(t.bindings, ids, {}), {}, gone) == BindingsOutside(t.bindings, ids, gone)
    ensures SessionsOutside(SessionsOutside(t.sessions, ids, {}), {}, gone) == SessionsOutside(t.sessions, ids, gone)
    ensures AssetsOutside(t.assets, {}) == t.assets
    ensures t.devices - {} == t.devices
  {
  }

  lemma OutsideNothing(t: Tables)
    ensures WithoutDeviceData(t, {}) == t
  {
    assert BoundDevices(t, {}) == {};
    OutsideInTwoSteps(t, {}, {});
    assert BindingsOutside(t.bindings, {}, {}) == t.bindings;
    assert SessionsOutside(t.sessions, {}, {}) == t.sessions;
  }

  function FolderIds(t: Tables, paths: set<string>): set<FolderId> {
    set f | f in t.folders && t.folders[f] in paths
  }

  function WithoutFolders(t: Tables, paths: set<string>): Tables {
    var ids := FolderIds(t, paths);
    WithoutDeviceData(t, ids).(folders := t.folders - ids)
  }

  /** `get_or_create_mobile_folder`. `base` is the sanitized device name, `newId` the unused row id
      SQLite would hand out. */
  ghost function FolderFor(t: Tables, root: string, base: string, device: DeviceId, newId: FolderId): FolderOutcome {
    var stale := StaleFolders(t, device);
    var t1 := if stale != {} then WithoutDeviceData(t, stale) else t;
    match JoinedFolder(t1, device)
    case Some(f) => FolderRecord(WithDeviceState(t1, device, STATE_PAIRED), f, t1.folders[f], true)
    case None =>
      var path := UniqueFolderPath(t1.folders.Values, root, base, device);
      var t2 := WithFolder(t1, newId, path);
      if newId in t2.bindings then FolderRaised(t2)
      else FolderRecord(t2.(bindings := t2.bindings[newId := Binding(device, STATE_PAIRED)]), newId, path, false)
  }

  ghost predicate RepairConflict(t: Tables, folder: FolderId, replacement: DeviceId) {
    exists f :: f in t.bindings && f != folder && t.bindings[f].device == replacement
  }

  /** The previous device's assets under the replacement's name; on a clash the moved row wins. */
  function ReboundAssets(assets: map<AssetKey, Asset>, previous: DeviceId, replacement: DeviceId): map<AssetKey, Asset> {
    map k | k in (set j | j in assets && j.device != previous)
                 + (set j | j in assets && j.device == previous :: AssetKey(replacement, j.asset)) ::
      if k.device == replacement && AssetKey(previous, k.asset) in assets
      then assets[AssetKey(previous, k.asset)]
      else assets[k]
  }

  /** `repair_mobile_folder_device_binding`. */
  ghost function RepairedStore(t: Tables, folder: FolderId, previous: DeviceId, replacement: DeviceId): RepairOutcome {
    if previous == replacement then
      Repaired(if folder in t.bindings
               then t.(bindings := t.bindings[folder := t.bindings[folder].(state := STATE_PAIRED)]) else t)
    else if RepairConflict(t, folder, replacement) then RepairRaised
    else Repaired(t.(
      assets := ReboundAssets(t.assets, previous, replacement),
      sessions := map s | s in t.sessions ::
        if t.sessions[s].device == previous then t.sessions[s].(device := replacement, folder := folder)
        else t.sessions[s],
      bindings := if folder in t.bindings then t.bindings[folder := Binding(replacement, STATE_PAIRED)] else t.bindings,
      devices := t.devices - {previous}))
  }

  function WithSession(t: Tables, sid: SessionId, device: DeviceId, folder: FolderId): Tables {
    t.(sessions := t.sessions[sid := Session(device, folder, Paired, 0, 0, 0)])
  }

  function WithAsset(t: Tables, key: AssetKey, row: Asset): Tables {
    t.(assets := t.assets[key := row])
  }

  function OrElse(value: Option<int>, current: int): int {
    if value.Some? then value.value else current
  }

  /** `update_mobile_transfer_state`: the session row by id and device, the binding by device alone. */
  function WithTransferState(t: Tables, sid: SessionId, device: DeviceId, status: SessionStatus, state: string,
                             total: Option<int>, transferred: Option<int>, failed: Option<int>): Tables
  {
    var t1 := if sid in t.sessions && t.sessions[sid].device == device then
                var s := t.sessions[sid];
                t.(sessions := t.sessions[sid := s.(status := status, total := OrElse(total, s.total),
                                                    transferred := OrElse(transferred, s.transferred),
                                                    failed := OrElse(failed, s.failed))])
              else t;
    WithDeviceState(t1, device, state)
  }

  function WithOneMoreTransferred(t: Tables, sid: SessionId, device: DeviceId): Tables {
    if sid in t.sessions && t.sessions[sid].device == device
    then t.(sessions := t.sessions[sid := t.sessions[sid].(transferred := t.sessions[sid].transferred + 1)])
    else t
  }

  /** The state of the copying loop: every row is in place except those still in `rows`. */
  ghost predicate CopiedExcept(before: map<AssetKey, Asset>, now: map<AssetKey, Asset>, rows: set<AssetKey>,
                               previous: DeviceId, replacement: DeviceId)
  {
    forall j: AssetKey ::
      var source := AssetKey(previous, j.asset);
      var moved := j.device == replacement && source in before && source !in rows;
      && (j in now <==> moved || j in before)
      && (j in now ==> now[j] == if moved then before[source] else before[j])
  }

  lemma CopiedAll(before: map<AssetKey, Asset>, now: map<AssetKey, Asset>, previous: DeviceId, replacement: DeviceId)
    requires previous != replacement
    requires CopiedExcept(before, now, {}, previous, replacement)
    ensures AssetsOutside(now, {previous}) == ReboundAssets(before, previous, replacement)
  {
    var kept, target := AssetsOutside(now, {previous}), ReboundAssets(before, previous, replacement);
    forall j: AssetKey
      ensures j in kept <==> j in target
      ensures j in kept ==> kept[j] == target[j]
    {
      var source := AssetKey(previous, j.asset);
      assert source == AssetKey(source.device, source.asset);
      assert j == AssetKey(j.device, j.asset);
      assert j in now <==> (j.device == replacement && source in before) || j in before;
    }
  }

  lemma JoinedFolderIs(t: Tables, device: DeviceId, f: FolderId)
    requires BindingsUnique(t)
    requires f in t.bindings && f in t.folders && t.bindings[f].device == device
    ensures JoinedFolder(t, device) == Some(f)
  {
    assert JoinedFolder(t, device).Some?;
  }

  /** The open connection: one mutable field per table. */
  class Database {
    var folders: map<FolderId, string>
    var devices: map<DeviceId, Device>
    var bindings: map<FolderId, Binding>
    var sessions: map<SessionId, Session>
    var assets: map<AssetKey, Asset>

    ghost function T(): Tables
      reads this
    {
      Tables(folders, devices, bindings, sessions, assets)
    }

    constructor ()
      ensures T() == EMPTY_STORE
    {
      folders, devices, bindings, sessions, assets := map[], map[], map[], map[], map[];
    }

    method UpsertMobileDevice(device: DeviceId, row: Device)
      modifies this
      ensures T() == WithDevice(old(T()), device, row)
    {
      devices := devices[device := row];
    }

    /** `INSERT OR IGNORE`: returns whether a row was inserted. */
    method InsertFolder(path: string, newId: FolderId) returns (inserted: bool)
      modifies this
      ensures T() == WithFolder(old(T()), newId, path)
      ensures inserted <==> path !in old(folders).Values
    {
      inserted := path !in folders.Values;
      if inserted {
        folders := folders[newId := path];
      }
    }

    method DeleteMobileDeviceData(ids: set<FolderId>)
      modifies this
      ensures T() == WithoutDeviceData(old(T()), ids)
    {
      if ids == {} {
        OutsideNothing(T());
        return;
      }
      var gone := set f | f in ids && f in bindings :: bindings[f].device;
      OutsideInTwoSteps(T(), ids, gone);
      assert gone == BoundDevices(T(), ids);
      sessions := SessionsOutside(sessions, ids, {});
      bindings := BindingsOutside(bindings, ids, {});
      if gone != {} {
        assets := AssetsOutside(assets, gone);
        sessions := SessionsOutside(sessions, {}, gone);
        bindings := BindingsOutside(bindings, {}, gone);
        devices := devices - gone;
      }
    }

    method DeleteFolders(paths: set<string>)
      modifies this
      ensures T() == WithoutFolders(old(T()), paths)
    {
      var ids := set f | f in folders && folders[f] in paths;
      if ids != {} {
        DeleteMobileDeviceData(ids);
      } else {
        OutsideNothing(T());
      }
      folders := map f | f in folders && folders[f] !in paths :: folders[f];
      assert folders == old(folders) - ids;
    }

    method GetOrCreateMobileFolder(root: string, base: string, device: DeviceId, newId: FolderId)
      returns (raised: bool, folder: FolderId, path: string, reused: bool)
      requires SchemaOk(T())
      requires newId !in folders
      modifies this
      ensures T() == FolderFor(old(T()), root, base, device, newId).tables
      ensures raised <==> FolderFor(old(T()), root, base, device, newId).FolderRaised?
      ensures !raised ==> FolderFor(old(T()), root, base, device, newId) == FolderRecord(T(), folder, path, reused)
    {
      raised, folder, path, reused := false, 0, "", false;
      var stale := set f | f in bindings && bindings[f].device == device && f !in folders;
      assert stale == StaleFolders(T(), device);
      if stale != {} {
        DeleteMobileDeviceData(stale);
      }
      ghost var t1 := T();
      assert BindingsUnique(t1);
      if f :| f in bindings && f in folders && bindings[f].device == device {
        folder := f;
        JoinedFolderIs(t1, device, folder);
        bindings := map f | f in bindings ::
          if bindings[f].device == device then bindings[f].(state := STATE_PAIRED) else bindings[f];
        path, reused := folders[folder], true;
        return;
      }
      assert JoinedFolder(t1, device) == None;
      path := FindUniqueFolderPath(folders.Values, root, base, device);
      UniqueFolderPathIsFree(folders.Values, root, base, device);
      var _ := InsertFolder(path, newId);
      folder := newId;
      if folder in bindings {
        raised := true;
        return;
      }
      bindings := bindings[folder := Binding(device, STATE_PAIRED)];
    }

    /** The copying loop of the repair; SQLite returns the rows in no particular order. */
    method MoveAssetRows(previous: DeviceId, replacement: DeviceId)
      requires previous != replacement
      modifies `assets
      ensures AssetsOutside(assets, {previous}) == ReboundAssets(old(assets), previous, replacement)
    {
      var before := assets;
      var rows := set k | k in before && k.device == previous;
      while rows != {}
        invariant rows <= set k | k in before && k.device == previous
        invariant CopiedExcept(before, assets, rows, previous, replacement)
        decreases |rows|
      {
        var k :| k in rows;
        assets := assets[AssetKey(replacement, k.asset) := before[k]];
        rows := rows - {k};
      }
      CopiedAll(before, assets, previous, replacement);
    }

    method RepairMobileFolderDeviceBinding(folder: FolderId, previous: DeviceId, replacement: DeviceId)
      returns (raised: bool)
      modifies this
      ensures raised <==> RepairedStore(old(T()), folder, previous, replacement).RepairRaised?
      ensures raised ==> T() == old(T())
      ensures !raised ==> RepairedStore(old(T()), folder, previous, replacement) == Repaired(T())
    {
      raised := false;
      if previous == replacement {
        if folder in bindings {
          bindings := bindings[folder := bindings[folder].(state := STATE_PAIRED)];
        }
        return;
      }
      if f :| f in bindings && bindings[f].device == replacement && f != folder {
        raised := true;
        return;
      }
      MoveAssetRows(previous, replacement);
      sessions := map s | s in sessions ::
        if sessions[s].device == previous then sessions[s].(device := replacement, folder := folder) else sessions[s];
      if folder in bindings {
        bindings := bindings[folder := Binding(replacement, STATE_PAIRED)];
      }
      assets := AssetsOutside(assets, {previous});
      devices := devices - {previous};
    }

    /** The primary key makes a second insert of a session id raise. */
    method InsertMobileBackupSession(sid: SessionId, device: DeviceId, folder: FolderId) returns (raised: bool)
      modifies this
      ensures raised <==> sid in old(sessions)
      ensures T() == if raised then old(T()) else WithSession(old(T()), sid, device, folder)
    {
      raised := sid in sessions;
      if !raised {
        sessions := sessions[sid := Session(device, folder, Paired, 0, 0, 0)];
      }
    }

    method GetMobileTransferContext(sid: SessionId, device: DeviceId) returns (context: Option<TransferContext>)
      ensures context == Context(T(), sid, device)
    {
      if sid !in sessions || sessions[sid].device != device || device !in devices {
        return None;
      }
      var s := sessions[sid];
      if s.folder !in folders {
        return None;
      }
      var state := if s.folder in bindings then Some(bindings[s.folder].state) else None;
      context := Some(TransferContext(s.status, s.folder, folders[s.folder], state, devices[device].trustKey));
    }

    method UpsertMobileAssetRecord(key: AssetKey, row: Asset)
      modifies this
      ensures T() == WithAsset(old(T()), key, row)
    {
      assets := assets[key := row];
    }

    method UpdateMobileTransferState(sid: SessionId, device: DeviceId, status: SessionStatus, state: string,
                                     total: Option<int>, transferred: Option<int>, failed: Option<int>)
      modifies this
      ensures T() == WithTransferState(old(T()), sid, device, status, state, total, transferred, failed)
    {
      if sid in sessions && sessions[sid].device == device {
        var s := sessions[sid];
        sessions := sessions[sid := s.(status := status, total := OrElse(total, s.total),
                                       transferred := OrElse(transferred, s.transferred),
                                       failed := OrElse(failed, s.failed))];
      }
      bindings := map f | f in bindings ::
        if bindings[f].device == device then bindings[f].(state := state) else bindings[f];
    }

    method IncrementTransferredCount(sid: SessionId, device: DeviceId)
      modifies this
      ensures T() == WithOneMoreTransferred(old(T()), sid, device)
    {
      if sid in sessions && sessions[sid].device == device {
        sessions := sessions[sid := sessions[sid].(transferred := sessions[sid].transferred + 1)];
      }
    }
  }
}
