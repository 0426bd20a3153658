/** `append_to_index`: a list of paths is looked up a hundred at a time, and what is pending among the rows found
    is indexed under the folder given. Nothing checks that the rows belong to that folder. A path may have rows
    in several folders; `lookup` is the row the database returns for it. */
module IndexAppend {
  import opened Options
  import opened IndexPipeline

  function FoundPending(s: IndexState, paths: seq<string>, lookup: string -> Option<FileId>): seq<FileId> {
    if paths == [] then []
    else
      var front, found := FoundPending(s, paths[..|paths| - 1], lookup), lookup(paths[|paths| - 1]);
      if found.Some? && found.value in s.files && s.files[found.value].status == Pending then front + [found.value] else front
  }

  function PathSlice(paths: seq<string>, i: nat): seq<string> {
    var lo := if PAGE * i < |paths| then PAGE * i else |paths|;
    var hi := if PAGE * (i + 1) < |paths| then PAGE * (i + 1) else |paths|;
    paths[lo..hi]
  }

  function SliceCount(n: nat): nat {
    (n + PAGE - 1) / PAGE
  }

  datatype Call = Call(folder: FolderId, paths: seq<string>, lookup: string -> Option<FileId>, worlds: nat -> World,
                       embed: FileId -> Vector, isImage: string -> bool)

  /** One slice of the call. */
  function SliceEffect(s: IndexState, c: Call, i: nat): (IndexState, bool) {
    var ids := FoundPending(s, PathSlice(c.paths, i), c.lookup);
    if ids == [] then (s, true)
    else
      var (s', result) := AddToIndexEffect(s, c.folder, ids, c.worlds(i), c.embed, c.isImage);
      (s', result == Returned(true))
  }

  type Step = (IndexState, nat) -> IndexState
  type Gain = (IndexState, nat) -> set<FileId>

  function Iterated(s: IndexState, step: Step, n: nat): IndexState
    decreases n
  {
    if n == 0 then s else step(Iterated(s, step, n - 1), n - 1)
  }

  function Gathered(s: IndexState, step: Step, gain: Gain, n: nat): set<FileId>
    decreases n
  {
    if n == 0 then {} else Gathered(s, step, gain, n - 1) + gain(Iterated(s, step, n - 1), n - 1)
  }

  function StepOf(c: Call): Step {
    (t: IndexState, i: nat) => SliceEffect(t, c, i).0
  }

  /** The state after the first `n` slices. */
  function Slices(s: IndexState, c: Call, n: nat): IndexState {
    Iterated(s, StepOf(c), n)
  }

  /** The answers of the first `n` slices. */
  function SliceResults(s: IndexState, c: Call, n: nat): seq<bool> {
    seq(n, i requires 0 <= i < n => SliceEffect(Slices(s, c, i), c, i).1)
  }

  lemma SlicesSnoc(s: IndexState, c: Call, n: nat)
    ensures Slices(s, c, n + 1) == SliceEffect(Slices(s, c, n), c, n).0
    ensures SliceResults(s, c, n + 1) == SliceResults(s, c, n) + [SliceEffect(Slices(s, c, n), c, n).1]
  {
  }

  lemma SliceCountIs(length: nat, n: nat)
    requires PAGE * (n - 1) < length <= PAGE * n
    ensures n == SliceCount(length)
  {
  }

  /** One call of `append_to_index`, with the answers it yields. */
  function AppendEffect(s: IndexState, c: Call, ready: bool): (IndexState, seq<bool>) {
    if !ready then (s, [false])
    else if c.paths == [] then (s, [])
    else
      var s1, n := WithIndexCreated(s, c.folder), SliceCount(|c.paths|);
      (Slices(s1, c, n), SliceResults(s1, c, n))
  }

  /** The files one `_add_to_index` commits. */
  function Commits(s: IndexState, folder: FolderId, ids: seq<FileId>, w: World): seq<FileId> {
    if w.modelReady && w.writeOk && IndexOf(s, folder).Good? then Added(ids, w, if w.submitOk then BatchCount(|ids|) else 0)
    else []
  }

  function SliceCommits(s: IndexState, c: Call, i: nat): set<FileId> {
    var done := Commits(s, c.folder, FoundPending(s, PathSlice(c.paths, i), c.lookup), c.worlds(i));
    set id | id in done
  }

  function GainOf(c: Call): Gain {
    (t: IndexState, i: nat) => SliceCommits(t, c, i)
  }

  /** The files the first `n` slices commit. */
  function Committed(s: IndexState, c: Call, n: nat): set<FileId> {
    Gathered(s, StepOf(c), GainOf(c), n)
  }

  // ----- one pass -----

  lemma {:induction false} FoundAre(s: IndexState, paths: seq<string>, lookup: string -> Option<FileId>)
    ensures forall id :: id in FoundPending(s, paths, lookup) <==>
              id in s.files && s.files[id].status == Pending && exists path :: path in paths && lookup(path) == Some(id)
  {
    if paths != [] {
      var front, last := paths[..|paths| - 1], paths[|paths| - 1];
      FoundAre(s, front, lookup);
      assert paths == front + [last];
    }
  }

  /** The file is of the folder, or its own folder's index has it. */
  ghost predicate Findable(s: IndexState, folder: FolderId, id: FileId, embed: FileId -> Vector) {
    id in s.files ==> s.files[id].folder == folder || HasOwn(IndexOf(s, s.files[id].folder), id, embed)
  }

  /** An indexed file of another folder that its own index does not hold. */
  ghost predicate Lost(s: IndexState, id: FileId, folder: FolderId, embed: FileId -> Vector) {
    id in s.files && s.files[id].status == Indexed && !Findable(s, folder, id, embed)
  }

  lemma CommitsArePending(s: IndexState, folder: FolderId, ids: seq<FileId>, w: World)
    requires ArePending(s, ids)
    ensures ArePending(s, Commits(s, folder, ids, w)) && forall id :: id in Commits(s, folder, ids, w) ==> id in ids
  {
    AddedAreReadable(ids, w, if w.submitOk then BatchCount(|ids|) else 0);
  }

  lemma RetiringPendingKeeps(s: IndexState, ids: seq<FileId>, some: set<FileId>, embed: FileId -> Vector)
    requires Agreement(s, embed) && ArePending(s, ids) && forall id :: id in some ==> id in ids
    ensures Agreement(Retire(s, some), embed)
    ensures Agreement(Retire(Retire(s, some), set id | id in ids), embed)
  {
    RetireKeepsIff(s, some, embed);
    RetireKeepsIff(Retire(s, some), (set id | id in ids), embed);
  }

  lemma CommittingKeepsIff(s: IndexState, folder: FolderId, added: seq<FileId>, marked: set<FileId>, embed: FileId -> Vector)
    requires Agreement(Retire(s, marked), embed) && IndexOf(s, folder).Good?
    ensures Agreement(Commit(Retire(s, marked), folder, added, embed), embed)
       <==> forall id :: id in added ==> Findable(s, folder, id, embed)
  {
    CommitKeepsIff(Retire(s, marked), folder, added, embed);
    forall id
      ensures Findable(Retire(s, marked), folder, id, embed) <==> Findable(s, folder, id, embed)
    {
    }
  }

  /** A pass over pending files of any folders keeps the agreement exactly when each file it commits is findable. */
  lemma PassKeepsIff(s: IndexState, folder: FolderId, ids: seq<FileId>, w: World, embed: FileId -> Vector, isImage: string -> bool)
    requires Agreement(s, embed) && ArePending(s, ids)
    ensures Agreement(AddToIndexEffect(s, folder, ids, w, embed, isImage).0, embed)
       <==> forall id :: id in Commits(s, folder, ids, w) ==> Findable(s, folder, id, embed)
  {
    var n := if w.submitOk then BatchCount(|ids|) else 0;
    match IndexOf(s, folder) {
      case Corrupt => RecoveryKeeps(s, folder, embed);
      case Missing =>
      case Good(_) =>
        MarkedAreUnreadable(ids, w, n);
        RetiringPendingKeeps(s, ids, Marked(ids, w, n), embed);
        CommittingKeepsIff(s, folder, Added(ids, w, n), Marked(ids, w, n), embed);
    }
  }

  /** What a pass never touches. */
  lemma PassLeaves(s: IndexState, folder: FolderId, ids: seq<FileId>, w: World, embed: FileId -> Vector, isImage: string -> bool)
    ensures var s' := AddToIndexEffect(s, folder, ids, w, embed, isImage).0;
            SamePlaces(s, s') && (forall g :: g != folder ==> IndexOf(s', g) == IndexOf(s, g))
            && (forall id :: id in s.files && id !in ids && s.files[id].folder != folder ==> s'.files[id] == s.files[id])
            && (IndexOf(s, folder).Good? ==> forall id :: id in s.files && id !in ids ==> s'.files[id] == s.files[id])
            && (IndexOf(s, folder).Good? ==> IndexOf(s', folder).Good?)
  {
    var n := if w.submitOk then BatchCount(|ids|) else 0;
    AddKeepsPlaces(s, folder, ids, w, embed, isImage);
    AddedAreReadable(ids, w, n);
    MarkedAreUnreadable(ids, w, n);
  }

  /** What a pass commits is indexed, and nothing else becomes so. */
  lemma PassIndexes(s: IndexState, folder: FolderId, ids: seq<FileId>, w: World, embed: FileId -> Vector, isImage: string -> bool)
    requires ArePending(s, ids)
    ensures var s' := AddToIndexEffect(s, folder, ids, w, embed, isImage).0;
            s'.files.Keys == s.files.Keys
            && (forall id :: id in Commits(s, folder, ids, w) ==> id in s.files && s'.files[id].status == Indexed)
            && (forall id :: id in s.files && s'.files[id].status == Indexed ==>
                  s.files[id].status == Indexed || id in Commits(s, folder, ids, w))
  {
    AddedAreReadable(ids, w, if w.submitOk then BatchCount(|ids|) else 0);
  }

  // ----- slice by slice -----

  /** What any number of slices do: rows keep their places, other indexes are untouched, exactly the files done
      become indexed, and once the index is good no row but a pending one changes. */
  ghost predicate Progressed(s: IndexState, s': IndexState, folder: FolderId, done: set<FileId>) {
    && SamePlaces(s, s')
    && (forall g :: g != folder ==> IndexOf(s', g) == IndexOf(s, g))
    && (IndexOf(s, folder).Good? || done != {} ==> IndexOf(s', folder).Good?)
    && (forall id :: id in done ==> id in s.files && s'.files[id].status == Indexed)
    && (forall id :: id in s.files && s'.files[id].status == Indexed ==> s.files[id].status == Indexed || id in done)
    && (forall id :: id in s.files && s.files[id].status != Pending && (IndexOf(s, folder).Good? || s.files[id].folder != folder) ==>
          s'.files[id] == s.files[id])
  }

  lemma ProgressedTwice(s: IndexState, s1: IndexState, s2: IndexState, folder: FolderId, done1: set<FileId>, done2: set<FileId>)
    requires Progressed(s, s1, folder, done1) && Progressed(s1, s2, folder, done2)
    ensures Progressed(s, s2, folder, done1 + done2)
  {
    forall id | id in done1 + done2
      ensures id in s.files && s2.files[id].status == Indexed
    {
      if id in done1 {
        assert IndexOf(s1, folder).Good?;
      }
    }
  }

  lemma SliceProgresses(s: IndexState, c: Call, i: nat)
    ensures Progressed(s, SliceEffect(s, c, i).0, c.folder, SliceCommits(s, c, i))
  {
    var ids, w := FoundPending(s, PathSlice(c.paths, i), c.lookup), c.worlds(i);
    FoundAre(s, PathSlice(c.paths, i), c.lookup);
    if ids == [] {
      AddedNeedsReadable([], w, if w.submitOk then BatchCount(0) else 0);
    } else {
      CommitsArePending(s, c.folder, ids, w);
      PassLeaves(s, c.folder, ids, w, c.embed, c.isImage);
      PassIndexes(s, c.folder, ids, w, c.embed, c.isImage);
    }
  }

  lemma SliceKeepsIff(s: IndexState, c: Call, i: nat)
    requires Agreement(s, c.embed)
    ensures Agreement(SliceEffect(s, c, i).0, c.embed)
       <==> forall id :: id in SliceCommits(s, c, i) ==> Findable(s, c.folder, id, c.embed)
  {
    var ids, w := FoundPending(s, PathSlice(c.paths, i), c.lookup), c.worlds(i);
    FoundAre(s, PathSlice(c.paths, i), c.lookup);
    if ids == [] {
      AddedNeedsReadable([], w, if w.submitOk then BatchCount(0) else 0);
    } else {
      PassKeepsIff(s, c.folder, ids, w, c.embed, c.isImage);
    }
  }

  ghost predicate AllFindable(s: IndexState, folder: FolderId, embed: FileId -> Vector, ids: set<FileId>) {
    forall id :: id in ids ==> Findable(s, folder, id, embed)
  }

  lemma SameFindable(s: IndexState, s': IndexState, folder: FolderId, id: FileId, embed: FileId -> Vector)
    requires SamePlaces(s, s') && forall g :: g != folder ==> IndexOf(s', g) == IndexOf(s, g)
    ensures Findable(s', folder, id, embed) <==> Findable(s, folder, id, embed)
  {
  }

  lemma LostStays(s: IndexState, s': IndexState, folder: FolderId, done: set<FileId>, id: FileId, embed: FileId -> Vector)
    requires Progressed(s, s', folder, done) && Lost(s, id, folder, embed)
    ensures Lost(s', id, folder, embed)
  {
    SameFindable(s, s', folder, id, embed);
  }

  /** Either everything committed so far is findable and index and table agree, or some file is lost. */
  ghost predicate KeptOrLost(s: IndexState, s': IndexState, folder: FolderId, embed: FileId -> Vector, done: set<FileId>) {
    if AllFindable(s, folder, embed, done) then Agreement(s', embed) else exists id :: Lost(s', id, folder, embed)
  }

  lemma SliceKeepsOrLoses(s: IndexState, c: Call, i: nat)
    requires Agreement(s, c.embed)
    ensures KeptOrLost(s, SliceEffect(s, c, i).0, c.folder, c.embed, SliceCommits(s, c, i))
  {
    var s' := SliceEffect(s, c, i).0;
    SliceKeepsIff(s, c, i);
    SliceProgresses(s, c, i);
    if id :| id in SliceCommits(s, c, i) && !Findable(s, c.folder, id, c.embed) {
      SameFindable(s, s', c.folder, id, c.embed);
      assert Lost(s', id, c.folder, c.embed);
    }
  }

  lemma FindableFrom(s: IndexState, before: IndexState, folder: FolderId, embed: FileId -> Vector, done: set<FileId>, more: set<FileId>)
    requires Progressed(s, before, folder, done)
    ensures AllFindable(before, folder, embed, more) <==> AllFindable(s, folder, embed, more)
  {
    forall id
      ensures Findable(before, folder, id, embed) <==> Findable(s, folder, id, embed)
    {
      SameFindable(s, before, folder, id, embed);
    }
  }

  lemma KeptOrLostFrom(s: IndexState, before: IndexState, s': IndexState, folder: FolderId, embed: FileId -> Vector,
                       done: set<FileId>, more: set<FileId>)
    requires Progressed(s, before, folder, done) && Progressed(before, s', folder, more)
    requires KeptOrLost(s, before, folder, embed, done)
    requires Agreement(before, embed) ==> KeptOrLost(before, s', folder, embed, more)
    ensures KeptOrLost(s, s', folder, embed, done + more)
  {
    assert AllFindable(before, folder, embed, more) <==> AllFindable(s, folder, embed, more) by {
      FindableFrom(s, before, folder, embed, done, more);
    }
    if AllFindable(s, folder, embed, done) {
      assert AllFindable(s, folder, embed, more) <==> AllFindable(s, folder, embed, done + more);
    } else {
      var id :| Lost(before, id, folder, embed);
      LostStays(before, s', folder, more, id, embed);
    }
  }

  /** What a step is asked to do. */
  ghost predicate GoodStep(t: IndexState, t': IndexState, folder: FolderId, embed: FileId -> Vector, more: set<FileId>) {
    Progressed(t, t', folder, more) && (Agreement(t, embed) ==> KeptOrLost(t, t', folder, embed, more))
  }

  lemma GoodStepTwice(s: IndexState, before: IndexState, s': IndexState, folder: FolderId, embed: FileId -> Vector,
                      done: set<FileId>, more: set<FileId>)
    requires GoodStep(s, before, folder, embed, done) && GoodStep(before, s', folder, embed, more)
    ensures GoodStep(s, s', folder, embed, done + more)
  {
    ProgressedTwice(s, before, s', folder, done, more);
    if Agreement(s, embed) {
      KeptOrLostFrom(s, before, s', folder, embed, done, more);
    }
  }

  /** A relation that composes holds across any number of steps when it holds across each. */
  lemma {:induction false} IteratedRelates(s: IndexState, step: Step, gain: Gain, n: nat,
                                           r: (IndexState, IndexState, set<FileId>) -> bool)
    requires forall t :: r(t, t, {})
    requires forall t, u, v, d, e :: r(t, u, d) && r(u, v, e) ==> r(t, v, d + e)
    requires forall t, i: nat :: r(t, step(t, i), gain(t, i))
    ensures r(s, Iterated(s, step, n), Gathered(s, step, gain, n))
    decreases n
  {
    if n > 0 {
      var before := Iterated(s, step, n - 1);
      IteratedRelates(s, step, gain, n - 1, r);
      assert r(before, step(before, n - 1), gain(before, n - 1));
    }
  }

  lemma NoStep(s: IndexState, folder: FolderId, embed: FileId -> Vector)
    ensures GoodStep(s, s, folder, embed, {})
  {
  }

  lemma SlicesGood(s: IndexState, c: Call, n: nat)
    ensures GoodStep(s, Slices(s, c, n), c.folder, c.embed, Committed(s, c, n))
  {
    var r := (t: IndexState, u: IndexState, d: set<FileId>) => GoodStep(t, u, c.folder, c.embed, d);
    forall t
      ensures r(t, t, {})
    {
      NoStep(t, c.folder, c.embed);
    }
    forall t, u, v, d, e | r(t, u, d) && r(u, v, e)
      ensures r(t, v, d + e)
    {
      GoodStepTwice(t, u, v, c.folder, c.embed, d, e);
    }
    forall t, i: nat
      ensures r(t, StepOf(c)(t, i), GainOf(c)(t, i))
    {
      SliceGood(t, c, i);
    }
    IteratedRelates(s, StepOf(c), GainOf(c), n, r);
  }

  lemma SliceGood(s: IndexState, c: Call, i: nat)
    ensures GoodStep(s, SliceEffect(s, c, i).0, c.folder, c.embed, SliceCommits(s, c, i))
  {
    SliceProgresses(s, c, i);
    if Agreement(s, c.embed) {
      SliceKeepsOrLoses(s, c, i);
    }
  }

  // ----- the call -----

  /** The files a call commits. */
  function AppendCommits(s: IndexState, c: Call, ready: bool): set<FileId> {
    if ready then Committed(WithIndexCreated(s, c.folder), c, SliceCount(|c.paths|)) else {}
  }

  /** A call of `append_to_index` keeps index and table together exactly when every file it commits belongs to
      the folder it was given, or is in its own folder's index already. */
  lemma AppendKeepsIff(s: IndexState, c: Call, ready: bool)
    requires Agreement(s, c.embed)
    ensures Agreement(AppendEffect(s, c, ready).0, c.embed) <==> AllFindable(s, c.folder, c.embed, AppendCommits(s, c, ready))
  {
    if ready {
      var s1, n := WithIndexCreated(s, c.folder), SliceCount(|c.paths|);
      IndexCreatedKeeps(s, c.folder, c.embed);
      SlicesGood(s1, c, n);
      forall id
        ensures Findable(s1, c.folder, id, c.embed) <==> Findable(s, c.folder, id, c.embed)
      {
        SameFindable(s, s1, c.folder, id, c.embed);
      }
      if id :| Lost(Slices(s1, c, n), id, c.folder, c.embed) {
        assert !RowOk(Slices(s1, c, n), id, c.embed);
      }
    }
  }

  /** It indexes what it commits, and nothing else. */
  lemma AppendIndexes(s: IndexState, c: Call, ready: bool)
    ensures var s' := AppendEffect(s, c, ready).0;
            SamePlaces(s, s')
            && (forall id :: id in AppendCommits(s, c, ready) ==> id in s.files && s'.files[id].status == Indexed)
            && (forall id :: id in s.files && s'.files[id].status == Indexed ==>
                  s.files[id].status == Indexed || id in AppendCommits(s, c, ready))
  {
    SlicesGood(WithIndexCreated(s, c.folder), c, SliceCount(|c.paths|));
  }

  /** A row some path of the call finds. */
  ghost predicate FoundBy(c: Call, id: FileId) {
    exists path :: path in c.paths && c.lookup(path) == Some(id)
  }

  lemma SliceCommitsFound(s: IndexState, c: Call, i: nat)
    ensures forall id :: id in SliceCommits(s, c, i) ==> id in s.files && FoundBy(c, id)
  {
    var paths := PathSlice(c.paths, i);
    var ids := FoundPending(s, paths, c.lookup);
    FoundAre(s, paths, c.lookup);
    CommitsArePending(s, c.folder, ids, c.worlds(i));
    assert forall path :: path in paths ==> path in c.paths;
  }

  lemma AppendCommitsFound(s: IndexState, c: Call, ready: bool)
    ensures forall id :: id in AppendCommits(s, c, ready) ==> FoundBy(c, id)
  {
    if ready {
      var r := (t: IndexState, u: IndexState, d: set<FileId>) => forall id :: id in d ==> FoundBy(c, id);
      forall t, i: nat
        ensures r(t, StepOf(c)(t, i), GainOf(c)(t, i))
      {
        SliceCommitsFound(t, c, i);
      }
      IteratedRelates(WithIndexCreated(s, c.folder), StepOf(c), GainOf(c), SliceCount(|c.paths|), r);
    }
  }

  /** What a caller can see to: when every row its paths find is of the folder, whatever fails on the way. */
  lemma AppendOfOwnFilesKeeps(s: IndexState, c: Call, ready: bool)
    requires Agreement(s, c.embed)
    requires forall id :: id in s.files && FoundBy(c, id) ==> s.files[id].folder == c.folder
    ensures Agreement(AppendEffect(s, c, ready).0, c.embed)
  {
    AppendKeepsIff(s, c, ready);
    AppendCommitsFound(s, c, ready);
  }

  // ----- which files a call indexes when nothing fails -----

  ghost predicate Hits(c: Call, i: nat, id: FileId) {
    exists path :: path in PathSlice(c.paths, i) && c.lookup(path) == Some(id)
  }

  ghost predicate HitsBefore(c: Call, n: nat, id: FileId) {
    exists i: nat :: i < n && Hits(c, i, id)
  }

  predicate Waiting(s: IndexState, id: FileId) {
    id in s.files && s.files[id].status == Pending
  }

  /** One slice with nothing failing: it commits what it found waiting and could read, and leaves other rows. */
  ghost predicate PlainStep(t: IndexState, t': IndexState, c: Call, w: World, i: nat, more: set<FileId>) {
    IndexOf(t, c.folder).Good? ==>
      && IndexOf(t', c.folder).Good? && t'.files.Keys == t.files.Keys
      && (forall id :: id in more <==> Waiting(t, id) && Hits(c, i, id) && ReadOf(w, id) == Readable)
      && (forall id :: id in more ==> t'.files[id].status == Indexed)
      && (forall id :: id in t.files && !(Waiting(t, id) && Hits(c, i, id)) ==> t'.files[id] == t.files[id])
  }

  lemma SlicePlain(t: IndexState, c: Call, w: World, i: nat)
    requires Plain(w) && c.worlds(i) == w
    ensures PlainStep(t, SliceEffect(t, c, i).0, c, w, i, SliceCommits(t, c, i))
  {
    var ids := FoundPending(t, PathSlice(c.paths, i), c.lookup);
    FoundAre(t, PathSlice(c.paths, i), c.lookup);
    assert forall id :: id in ids <==> Waiting(t, id) && Hits(c, i, id);
    if IndexOf(t, c.folder).Good? {
      AddedCoversReadable(ids, w);
      PassLeaves(t, c.folder, ids, w, c.embed, c.isImage);
      PassIndexes(t, c.folder, ids, w, c.embed, c.isImage);
    }
  }

  lemma {:induction false} IteratedPlain(s: IndexState, c: Call, w: World, step: Step, gain: Gain, n: nat)
    requires IndexOf(s, c.folder).Good?
    requires forall t, i: nat :: PlainStep(t, step(t, i), c, w, i, gain(t, i))
    ensures var s' := Iterated(s, step, n);
            IndexOf(s', c.folder).Good? && s'.files.Keys == s.files.Keys
            && (forall id :: Waiting(s', id) ==> Waiting(s, id))
            && (forall id :: Waiting(s, id) && ReadOf(w, id) == Readable && !HitsBefore(c, n, id) ==> Waiting(s', id))
    ensures forall id :: id in Gathered(s, step, gain, n) <==> Waiting(s, id) && ReadOf(w, id) == Readable && HitsBefore(c, n, id)
    decreases n
  {
    if n > 0 {
      var before := Iterated(s, step, n - 1);
      IteratedPlain(s, c, w, step, gain, n - 1);
      assert PlainStep(before, step(before, n - 1), c, w, n - 1, gain(before, n - 1));
      forall id
        ensures HitsBefore(c, n, id) <==> HitsBefore(c, n - 1, id) || Hits(c, n - 1, id)
      {
      }
    }
  }

  lemma SlicesCoverPaths(c: Call, id: FileId)
    ensures HitsBefore(c, SliceCount(|c.paths|), id) <==> exists path :: path in c.paths && c.lookup(path) == Some(id)
  {
    if path :| path in c.paths && c.lookup(path) == Some(id) {
      var at :| 0 <= at < |c.paths| && c.paths[at] == path;
      var i := at / PAGE;
      assert PathSlice(c.paths, i)[at - PAGE * i] == path;
      assert Hits(c, i, id);
    }
  }

  /** With nothing failing and no corrupt index, a call indexes exactly the rows its paths found waiting and
      readable, whatever folder they belong to. */
  lemma PlainAppendCommits(s: IndexState, c: Call, w: World)
    requires Plain(w) && (forall i: nat :: c.worlds(i) == w) && !IndexOf(s, c.folder).Corrupt?
    ensures forall id :: id in AppendCommits(s, c, true) <==>
              Waiting(s, id) && ReadOf(w, id) == Readable && exists path :: path in c.paths && c.lookup(path) == Some(id)
  {
    var s1, n := WithIndexCreated(s, c.folder), SliceCount(|c.paths|);
    forall t, i: nat
      ensures PlainStep(t, StepOf(c)(t, i), c, w, i, GainOf(c)(t, i))
    {
      SlicePlain(t, c, w, i);
    }
    IteratedPlain(s1, c, w, StepOf(c), GainOf(c), n);
    forall id
      ensures HitsBefore(c, n, id) <==> exists path :: path in c.paths && c.lookup(path) == Some(id)
    {
      SlicesCoverPaths(c, id);
    }
  }

  /** A slice with nothing failing is answered with success exactly when its paths found nothing waiting, or something
      readable, or nothing that counts as a picture. */
  lemma SliceAnswersIff(s: IndexState, c: Call, w: World, i: nat)
    requires Plain(w) && c.worlds(i) == w && IndexOf(s, c.folder).Good?
    ensures SliceEffect(s, c, i).1 <==>
              || (forall id :: !(Waiting(s, id) && Hits(c, i, id)))
              || (exists id :: Waiting(s, id) && Hits(c, i, id) && ReadOf(w, id) == Readable)
              || (forall id :: Waiting(s, id) && Hits(c, i, id) ==> !c.isImage(s.files[id].path))
  {
    var ids := FoundPending(s, PathSlice(c.paths, i), c.lookup);
    FoundAre(s, PathSlice(c.paths, i), c.lookup);
    assert forall id :: id in ids <==> Waiting(s, id) && Hits(c, i, id);
    if ids != [] {
      assert ids[0] in ids;
      CleanPassSucceedsIff(s, c.folder, ids, w, c.embed, c.isImage);
    }
  }

  /** A call after which a file is marked as indexed and index and table disagree. */
  ghost predicate LosesFile(s: IndexState, c: Call, id: FileId) {
    var s' := AppendEffect(s, c, true).0;
    id in s'.files && s'.files[id].status == Indexed && !Agreement(s', c.embed)
  }

  /** Any waiting, readable file of another folder that a path of the call finds is lost. */
  lemma ForeignFileIsLost(s: IndexState, c: Call, w: World, path: string, id: FileId)
    requires Agreement(s, c.embed) && Plain(w) && (forall i: nat :: c.worlds(i) == w) && !IndexOf(s, c.folder).Corrupt?
    requires path in c.paths && c.lookup(path) == Some(id) && Waiting(s, id) && ReadOf(w, id) == Readable
    requires !Findable(s, c.folder, id, c.embed)
    ensures LosesFile(s, c, id)
  {
    PlainAppendCommits(s, c, w);
    assert id in AppendCommits(s, c, true);
    AppendIndexes(s, c, true);
    AppendKeepsIff(s, c, true);
  }
}
