/** The state of the resume editor: edits with a history of at most twenty snapshots, undo, and save states. */
module EditorReducer {
  import opened Wrappers
  import opened EditorOperations

  datatype SaveState = Offline | Saving | Saved | SaveError | Conflict

  datatype EditorModule = EditorModule(id: string, title: string, bullets: seq<string>)

  datatype EditorSnapshot = EditorSnapshot(modules: seq<EditorModule>)

  /** A snapshot as text: different snapshots have different texts. */
  datatype Serialized = Serialized(of: EditorSnapshot)

  datatype EditorState = EditorState(
    baseVersion: int, content: Serialized, dirty: bool, history: seq<EditorSnapshot>, saveState: SaveState,
    serverContent: Option<string>, snapshot: EditorSnapshot)

  datatype EditorAction =
    | Edit(content: string)
    | EditBullet(moduleIndex: int, bulletIndex: int, content: string)
    | SplitBulletAt(moduleIndex: int, bulletIndex: int)
    | MergeBulletAt(moduleIndex: int, bulletIndex: int)
    | MoveModule(from: int, to: int)
    | AddBullet(moduleIndex: int)
    | DeleteBullet(moduleIndex: int, bulletIndex: int)
    | Undo
    | MarkSaving
    | MarkSaved(version: int)
    | MarkOffline
    | MarkError
    | MarkConflict(serverContent: string)

  const HISTORY: nat := 20

  function CreateEditorState(content: string, baseVersion: int): EditorState {
    var snapshot := EditorSnapshot([
      EditorModule("education", "教育经历", ["华东大学 · 本科"]),
      EditorModule("project", "项目经历", [content]),
      EditorModule("skills", "技能", ["用户研究"])]);
    EditorState(baseVersion, Serialized(snapshot), false, [], Saved, None, snapshot)
  }

  function LastTwenty(history: seq<EditorSnapshot>): seq<EditorSnapshot> {
    if |history| > HISTORY then history[|history| - HISTORY..] else history
  }

  function WithSnapshot(state: EditorState, snapshot: EditorSnapshot): EditorState {
    if Serialized(snapshot) == state.content then state
    else
      state.(content := Serialized(snapshot), dirty := true, history := LastTwenty(state.history + [state.snapshot]),
             snapshot := snapshot)
  }

  /** Where `splice` starts: a negative index counts from the end. */
  function SpliceStart(length: nat, index: int): (i: nat)
    ensures i <= length
  {
    if index < 0 then (if length + index < 0 then 0 else length + index)
    else if index > length then length else index
  }

  function Spliced(bullets: seq<string>, index: int): seq<string> {
    var i := SpliceStart(|bullets|, index);
    if i == |bullets| then bullets else Removed(bullets, i)
  }

  /** The bullets of the edited module after the action; `None` when the action is refused there. */
  function EditedBullets(bullets: seq<string>, action: EditorAction): Option<seq<string>> {
    match action
    case EditBullet(_, i, content) => if 0 <= i < |bullets| then Some(bullets[i := content]) else None
    case SplitBulletAt(_, i) => Some(SplitBullet(bullets, i))
    case MergeBulletAt(_, i) => Some(MergeBullets(bullets, i))
    case AddBullet(_) => Some(bullets + [""])
    case DeleteBullet(_, i) => if |bullets| <= 1 then None else Some(Spliced(bullets, i))
    case _ => None
  }

  /** The snapshot after an edit; `None` when the action edits nothing. */
  function EditedSnapshot(snapshot: EditorSnapshot, action: EditorAction): Option<EditorSnapshot> {
    match action
    case Edit(content) => EditedModule(snapshot, 1, EditBullet(1, 0, content))
    case MoveModule(from, to) => Some(EditorSnapshot(Moved(snapshot.modules, from, to)))
    case EditBullet(m, _, _) => EditedModule(snapshot, m, action)
    case SplitBulletAt(m, _) => EditedModule(snapshot, m, action)
    case MergeBulletAt(m, _) => EditedModule(snapshot, m, action)
    case AddBullet(m) => EditedModule(snapshot, m, action)
    case DeleteBullet(m, _) => EditedModule(snapshot, m, action)
    case _ => None
  }

  function EditedModule(snapshot: EditorSnapshot, m: int, action: EditorAction): Option<EditorSnapshot> {
    if !(0 <= m < |snapshot.modules|) then None
    else
      var bullets := EditedBullets(snapshot.modules[m].bullets, action);
      if bullets.None? then None
      else Some(EditorSnapshot(snapshot.modules[m := snapshot.modules[m].(bullets := bullets.value)]))
  }

  /** The state after an action. */
  function Reduced(state: EditorState, action: EditorAction): EditorState {
    match action
    case Undo =>
      if state.history == [] then state
      else
        var previous := state.history[|state.history| - 1];
        state.(content := Serialized(previous), dirty := true, history := state.history[..|state.history| - 1],
               snapshot := previous)
    case MarkSaving => state.(saveState := Saving)
    case MarkSaved(version) => state.(baseVersion := version, dirty := false, saveState := Saved)
    case MarkOffline => state.(dirty := true, saveState := Offline)
    case MarkError => state.(dirty := true, saveState := SaveError)
    case MarkConflict(text) => state.(dirty := true, saveState := Conflict, serverContent := Some(text))
    case _ =>
      var edited := EditedSnapshot(state.snapshot, action);
      if edited.None? then state else WithSnapshot(state, edited.value)
  }

  // ----- what the reducer promises -----

  /** The new snapshot is taken over, and the old one is the latest that undo reaches, unless the text is the same. */
  predicate Commits(state: EditorState, snapshot: EditorSnapshot, next: EditorState) {
    if Serialized(snapshot) == state.content then next == state
    else
      && next == EditorState(state.baseVersion, Serialized(snapshot), true, next.history, state.saveState,
                             state.serverContent, snapshot)
      && |next.history| == (if |state.history| >= 20 then 20 else |state.history| + 1)
      && next.history == (state.history + [state.snapshot])[|state.history| + 1 - |next.history|..]
  }

  /** Only the bullets of module `m` change. */
  predicate CommitsBullets(state: EditorState, m: int, bullets: seq<string>, next: EditorState)
    requires 0 <= m < |state.snapshot.modules|
  {
    var modules := state.snapshot.modules;
    Commits(state, EditorSnapshot(modules[m := EditorModule(modules[m].id, modules[m].title, bullets)]), next)
  }

  /** The action on the bullets of one module; the other actions are told apart in `Tells`. */
  predicate TellsBullets(state: EditorState, m: int, action: EditorAction, next: EditorState) {
    if !(0 <= m < |state.snapshot.modules|) then next == state
    else
      var bullets := state.snapshot.modules[m].bullets;
      var n := |bullets|;
      match action
      case EditBullet(_, i, content) =>
        if i < 0 || i >= n then next == state
        else CommitsBullets(state, m, bullets[..i] + [content] + bullets[i + 1..], next)
      case SplitBulletAt(_, i) => CommitsBullets(state, m, SplitBullet(bullets, i), next)
      case MergeBulletAt(_, i) =>
        CommitsBullets(state, m,
                       if 0 <= i < n - 1
                       then bullets[..i] + [bullets[i] + "；" + bullets[i + 1]] + bullets[i + 2..] else bullets,
                       next)
      case AddBullet(_) => CommitsBullets(state, m, bullets + [""], next)
      case DeleteBullet(_, i) =>
        var at := if i >= 0 then i else if n + i >= 0 then n + i else 0;
        if n <= 1 then next == state
        else CommitsBullets(state, m, if at >= n then bullets else bullets[..at] + bullets[at + 1..], next)
      case _ => true
  }

  /** The state after each action, field by field. */
  ghost predicate Tells(state: EditorState, action: EditorAction, next: EditorState) {
    match action
    case Edit(content) => TellsBullets(state, 1, EditBullet(1, 0, content), next)
    case EditBullet(m, _, _) => TellsBullets(state, m, action, next)
    case SplitBulletAt(m, _) => TellsBullets(state, m, action, next)
    case MergeBulletAt(m, _) => TellsBullets(state, m, action, next)
    case AddBullet(m) => TellsBullets(state, m, action, next)
    case DeleteBullet(m, _) => TellsBullets(state, m, action, next)
    case MoveModule(from, to) =>
      exists moved :: MovedTo(state.snapshot.modules, from, to, moved) && Commits(state, EditorSnapshot(moved), next)
    case Undo =>
      if state.history == [] then next == state
      else
        && next.history + [next.snapshot] == state.history && next.content == Serialized(next.snapshot) && next.dirty
        && next.baseVersion == state.baseVersion && next.saveState == state.saveState
        && next.serverContent == state.serverContent
    case MarkSaving => next == state.(saveState := Saving)
    case MarkSaved(version) => next == state.(baseVersion := version, dirty := false, saveState := Saved)
    case MarkOffline => next == state.(dirty := true, saveState := Offline)
    case MarkError => next == state.(dirty := true, saveState := SaveError)
    case MarkConflict(text) =>
      next == state.(dirty := true, saveState := Conflict, serverContent := Some(text))
  }

  lemma SnapshotCommits(state: EditorState, snapshot: EditorSnapshot)
    ensures Commits(state, snapshot, WithSnapshot(state, snapshot))
  {
  }

  lemma ModuleCommits(state: EditorState, m: int, action: EditorAction)
    requires 0 <= m < |state.snapshot.modules|
    ensures var bullets := EditedBullets(state.snapshot.modules[m].bullets, action);
            var edited := EditedModule(state.snapshot, m, action);
            if bullets.None? then edited.None?
            else edited.Some? && CommitsBullets(state, m, bullets.value, WithSnapshot(state, edited.value))
  {
    hide WithSnapshot, Commits, EditedBullets;
    var edited := EditedModule(state.snapshot, m, action);
    if edited.Some? {
      SnapshotCommits(state, edited.value);
    }
  }

  lemma BulletsTell(state: EditorState, m: int, action: EditorAction)
    ensures var edited := EditedModule(state.snapshot, m, action);
            TellsBullets(state, m, action, if edited.None? then state else WithSnapshot(state, edited.value))
  {
    hide WithSnapshot, CommitsBullets, SplitBullet;
    if 0 <= m < |state.snapshot.modules| {
      ModuleCommits(state, m, action);
      hide EditedModule;
      var bullets := state.snapshot.modules[m].bullets;
      match action
      case EditBullet(_, i, content) =>
        if 0 <= i < |bullets| {
          assert bullets[i := content] == bullets[..i] + [content] + bullets[i + 1..];
        }
      case MergeBulletAt(_, i) =>
        if 0 <= i < |bullets| - 1 {
          assert bullets[i] + [SEMICOLON] + bullets[i + 1] == bullets[i] + "；" + bullets[i + 1];
        }
      case _ =>
    }
  }

  lemma ReducedTells(state: EditorState, action: EditorAction)
    ensures Tells(state, action, Reduced(state, action))
  {
    hide WithSnapshot, Commits, TellsBullets, EditedModule, MovedTo;
    match action
    case Edit(content) => BulletsTell(state, 1, EditBullet(1, 0, content));
    case EditBullet(m, _, _) => BulletsTell(state, m, action);
    case SplitBulletAt(m, _) => BulletsTell(state, m, action);
    case MergeBulletAt(m, _) => BulletsTell(state, m, action);
    case AddBullet(m) => BulletsTell(state, m, action);
    case DeleteBullet(m, _) => BulletsTell(state, m, action);
    case MoveModule(from, to) =>
      SnapshotCommits(state, EditorSnapshot(Moved(state.snapshot.modules, from, to)));
    case _ =>
  }

  /** The reducer works on a copy of the snapshot's modules. */
  method Reduce(state: EditorState, action: EditorAction) returns (next: EditorState)
    ensures next == Reduced(state, action) && Tells(state, action, next)
    decreases action.Edit?
  {
    hide Tells;
    ReducedTells(state, action);
    var modules := state.snapshot.modules;
    match action
    case Edit(content) =>
      next := Reduce(state, EditBullet(1, 0, content));
    case EditBullet(m, i, content) =>
      if !(0 <= m < |modules|) || !(0 <= i < |modules[m].bullets|) {
        return state;
      }
      var bullets := modules[m].bullets;
      bullets := bullets[i := content];
      modules := modules[m := modules[m].(bullets := bullets)];
      next := WithSnapshot(state, EditorSnapshot(modules));
    case SplitBulletAt(m, i) =>
      if !(0 <= m < |modules|) {
        return state;
      }
      modules := modules[m := modules[m].(bullets := SplitBullet(modules[m].bullets, i))];
      next := WithSnapshot(state, EditorSnapshot(modules));
    case MergeBulletAt(m, i) =>
      if !(0 <= m < |modules|) {
        return state;
      }
      modules := modules[m := modules[m].(bullets := MergeBullets(modules[m].bullets, i))];
      next := WithSnapshot(state, EditorSnapshot(modules));
    case MoveModule(from, to) =>
      var moved := MoveItem(modules, from, to);
      MovedIsOne(modules, from, to, moved, Moved(modules, from, to));
      next := WithSnapshot(state, EditorSnapshot(moved));
    case AddBullet(m) =>
      if !(0 <= m < |modules|) {
        return state;
      }
      modules := modules[m := modules[m].(bullets := modules[m].bullets + [""])];
      next := WithSnapshot(state, EditorSnapshot(modules));
    case DeleteBullet(m, i) =>
      if !(0 <= m < |modules|) || |modules[m].bullets| <= 1 {
        return state;
      }
      modules := modules[m := modules[m].(bullets := Spliced(modules[m].bullets, i))];
      next := WithSnapshot(state, EditorSnapshot(modules));
    case Undo =>
      if state.history == [] {
        return state;
      }
      var previous := state.history[|state.history| - 1];
      next := state.(content := Serialized(previous), dirty := true, history := state.history[..|state.history| - 1],
                     snapshot := previous);
    case MarkSaving =>
      next := state.(saveState := Saving);
    case MarkSaved(version) =>
      next := state.(baseVersion := version, dirty := false, saveState := Saved);
    case MarkOffline =>
      next := state.(dirty := true, saveState := Offline);
    case MarkError =>
      next := state.(dirty := true, saveState := SaveError);
    case MarkConflict(text) =>
      next := state.(dirty := true, saveState := Conflict, serverContent := Some(text));
  }

  // ----- what every action keeps -----

  /** Ids and titles of the modules in their order. */
  function Names(modules: seq<EditorModule>): (r: seq<(string, string)>)
    ensures |r| == |modules| && forall i :: 0 <= i < |modules| ==> r[i] == (modules[i].id, modules[i].title)
  {
    seq(|modules|, i requires 0 <= i < |modules| => (modules[i].id, modules[i].title))
  }

  /** The modules without their bullets and their order. */
  function Headings(snapshot: EditorSnapshot): multiset<(string, string)> {
    multiset(Names(snapshot.modules))
  }

  predicate NoModuleEmpty(snapshot: EditorSnapshot) {
    forall i :: 0 <= i < |snapshot.modules| ==> snapshot.modules[i].bullets != []
  }

  /** A snapshot of the same modules in some order, each with a bullet at least. */
  predicate SameModules(snapshot: EditorSnapshot, headings: multiset<(string, string)>) {
    Headings(snapshot) == headings && NoModuleEmpty(snapshot)
  }

  /** The content is the snapshot's text, and what undo can reach is at most twenty snapshots of the same modules. */
  predicate Consistent(state: EditorState, headings: multiset<(string, string)>) {
    && state.content == Serialized(state.snapshot)
    && |state.history| <= HISTORY
    && SameModules(state.snapshot, headings)
    && forall k :: 0 <= k < |state.history| ==> SameModules(state.history[k], headings)
  }

  lemma NamesOfRemoved(modules: seq<EditorModule>, i: nat)
    requires i < |modules|
    ensures Names(Removed(modules, i)) == Removed(Names(modules), i)
  {
  }

  /** A move of the modules moves their names. */
  lemma NamesMove(modules: seq<EditorModule>, from: int, to: int)
    ensures Names(Moved(modules, from, to)) == Moved(Names(modules), from, to)
  {
    hide Names, Removed, Moved;
    var moved := Moved(modules, from, to);
    if Moves(modules, from, to) {
      NamesOfRemoved(modules, from);
      NamesOfRemoved(moved, to);
    }
    MovedIsOne(Names(modules), from, to, Names(moved), Moved(Names(modules), from, to));
  }

  lemma MoveKeepsModules(snapshot: EditorSnapshot, from: int, to: int)
    ensures Headings(EditorSnapshot(Moved(snapshot.modules, from, to))) == Headings(snapshot)
    ensures NoModuleEmpty(snapshot) ==> NoModuleEmpty(EditorSnapshot(Moved(snapshot.modules, from, to)))
  {
    hide Names, Moved, MovedTo;
    var modules := snapshot.modules;
    var moved := Moved(modules, from, to);
    NamesMove(modules, from, to);
    MovePermutes(Names(modules), from, to);
    MovePermutes(modules, from, to);
    forall i | 0 <= i < |moved| ensures moved[i] in modules {
      assert moved[i] in multiset(moved);
    }
  }

  lemma BulletsStay(bullets: seq<string>, action: EditorAction)
    requires bullets != [] && EditedBullets(bullets, action).Some?
    ensures EditedBullets(bullets, action).value != []
  {
    hide SplitBullet, MergeBullets;
    match action
    case SplitBulletAt(_, i) => SplitIsNotEmpty(bullets, i);
    case MergeBulletAt(_, i) => MergeIsNotEmpty(bullets, i);
    case _ =>
  }

  lemma SplitIsNotEmpty(bullets: seq<string>, i: int)
    requires bullets != []
    ensures SplitBullet(bullets, i) != []
  {
    hide Parts;
  }

  lemma MergeIsNotEmpty(bullets: seq<string>, i: int)
    requires bullets != []
    ensures MergeBullets(bullets, i) != []
  {
  }

  lemma EditedModuleKeeps(snapshot: EditorSnapshot, m: int, action: EditorAction, headings: multiset<(string, string)>)
    requires SameModules(snapshot, headings) && EditedModule(snapshot, m, action).Some?
    ensures SameModules(EditedModule(snapshot, m, action).value, headings)
  {
    hide EditedBullets;
    var after := EditedModule(snapshot, m, action).value;
    BulletsStay(snapshot.modules[m].bullets, action);
    assert Names(after.modules) == Names(snapshot.modules);
  }

  /** Modules are only reordered and none ever loses its last bullet. */
  lemma EditKeepsModules(snapshot: EditorSnapshot, action: EditorAction, headings: multiset<(string, string)>)
    requires SameModules(snapshot, headings) && EditedSnapshot(snapshot, action).Some?
    ensures SameModules(EditedSnapshot(snapshot, action).value, headings)
  {
    hide EditedModule, Headings, NoModuleEmpty, Moved;
    match action
    case MoveModule(from, to) => MoveKeepsModules(snapshot, from, to);
    case Edit(content) => EditedModuleKeeps(snapshot, 1, EditBullet(1, 0, content), headings);
    case EditBullet(m, _, _) => EditedModuleKeeps(snapshot, m, action, headings);
    case SplitBulletAt(m, _) => EditedModuleKeeps(snapshot, m, action, headings);
    case MergeBulletAt(m, _) => EditedModuleKeeps(snapshot, m, action, headings);
    case AddBullet(m) => EditedModuleKeeps(snapshot, m, action, headings);
    case DeleteBullet(m, _) => EditedModuleKeeps(snapshot, m, action, headings);
    case _ => assert false;
  }

  predicate IsEdit(action: EditorAction) {
    !(action.Undo? || action.MarkSaving? || action.MarkSaved? || action.MarkOffline?
      || action.MarkError? || action.MarkConflict?)
  }

  lemma StepKeepsConsistent(state: EditorState, action: EditorAction, headings: multiset<(string, string)>)
    requires Consistent(state, headings)
    ensures Consistent(Reduced(state, action), headings)
  {
    hide EditedSnapshot, SameModules;
    if IsEdit(action) && EditedSnapshot(state.snapshot, action).Some? {
      EditKeepsModules(state.snapshot, action, headings);
    }
  }

  function Run(state: EditorState, actions: seq<EditorAction>): EditorState
    decreases |actions|
  {
    if actions == [] then state else Run(Reduced(state, actions[0]), actions[1..])
  }

  lemma {:induction false} RunKeepsConsistent(state: EditorState, actions: seq<EditorAction>,
                                              headings: multiset<(string, string)>)
    requires Consistent(state, headings)
    ensures Consistent(Run(state, actions), headings)
    decreases |actions|
  {
    if actions != [] {
      StepKeepsConsistent(state, actions[0], headings);
      RunKeepsConsistent(Reduced(state, actions[0]), actions[1..], headings);
    }
  }

  /** Every state the editor can reach is consistent, with the three modules it started with. */
  lemma ReachableIsConsistent(content: string, baseVersion: int, actions: seq<EditorAction>)
    ensures var start := CreateEditorState(content, baseVersion);
            Consistent(Run(start, actions), Headings(start.snapshot))
  {
    var start := CreateEditorState(content, baseVersion);
    RunKeepsConsistent(start, actions, Headings(start.snapshot));
  }

  // ----- undo -----

  /** The action changes the content. */
  predicate Effective(state: EditorState, action: EditorAction) {
    IsEdit(action) && EditedSnapshot(state.snapshot, action).Some?
    && Serialized(EditedSnapshot(state.snapshot, action).value) != state.content
  }

  /** How many of the actions change the content. */
  function Effects(state: EditorState, actions: seq<EditorAction>): nat
    decreases |actions|
  {
    if actions == [] then 0
    else (if Effective(state, actions[0]) then 1 else 0) + Effects(Reduced(state, actions[0]), actions[1..])
  }

  predicate NoUndo(actions: seq<EditorAction>) {
    forall i :: 0 <= i < |actions| ==> !actions[i].Undo?
  }

  function Undos(n: nat): (r: seq<EditorAction>)
    ensures |r| == n
  {
    seq(n, _ => Undo)
  }

  /** What undo can reach and the present snapshot. */
  function Timeline(state: EditorState): seq<EditorSnapshot> {
    state.history + [state.snapshot]
  }

  /** What `n` undos do to a history that is long enough. */
  lemma {:induction false} UndosGoBack(state: EditorState, n: nat)
    requires n <= |state.history|
    ensures var after := Run(state, Undos(n));
            && after.history == state.history[..|state.history| - n]
            && after.snapshot == Timeline(state)[|state.history| - n]
            && (n > 0 ==> after.content == Serialized(after.snapshot))
            && (n == 0 ==> after == state)
    decreases n
  {
    if n != 0 {
      var one := Reduced(state, Undo);
      assert Undos(n)[1..] == Undos(n - 1);
      UndosGoBack(one, n - 1);
    }
  }

  /**
   * After `k` effective edits the timeline has grown by `k`, cut to its last entries; before the `k` new ones
   * come the last entries of the old.
   */
  ghost predicate Remembers(before: seq<EditorSnapshot>, after: seq<EditorSnapshot>, k: nat) {
    && |after| == (if |before| + k > HISTORY + 1 then HISTORY + 1 else |before| + k)
    && forall j :: 0 <= j < |after| - k ==> after[j] == before[|before| + k - |after| + j]
  }

  lemma RemembersOn(a: seq<EditorSnapshot>, b: seq<EditorSnapshot>, c: seq<EditorSnapshot>, k: nat, l: nat)
    requires 0 < |a| <= HISTORY + 1 && k <= 1
    requires Remembers(a, b, k) && Remembers(b, c, l)
    ensures Remembers(a, c, k + l)
  {
    forall j | 0 <= j < |c| - k - l ensures c[j] == a[|a| + k + l - |c| + j] {
      assert c[j] == b[|b| + l - |c| + j];
    }
  }

  /** A run without undo with `k` effective edits remembers where it started `k` snapshots back. */
  lemma {:induction false} RunRemembers(state: EditorState, actions: seq<EditorAction>)
    requires |state.history| <= HISTORY && NoUndo(actions)
    ensures Remembers(Timeline(state), Timeline(Run(state, actions)), Effects(state, actions))
    decreases |actions|
  {
    if actions != [] {
      hide Effective, Reduced, Remembers, Timeline;
      var next := Reduced(state, actions[0]);
      StepRemembers(state, actions[0]);
      RunRemembers(next, actions[1..]);
      RemembersOn(Timeline(state), Timeline(next), Timeline(Run(state, actions)),
                  if Effective(state, actions[0]) then 1 else 0, Effects(next, actions[1..]));
    }
  }

  lemma NewSnapshotRemembers(history: seq<EditorSnapshot>, present: EditorSnapshot, next: EditorSnapshot)
    requires |history| <= HISTORY
    ensures |LastTwenty(history + [present])| <= HISTORY
    ensures Remembers(history + [present], LastTwenty(history + [present]) + [next], 1)
  {
  }

  lemma StepRemembers(state: EditorState, action: EditorAction)
    requires |state.history| <= HISTORY && !action.Undo?
    ensures |Reduced(state, action).history| <= HISTORY && 0 < |Timeline(state)| <= HISTORY + 1
    ensures Remembers(Timeline(state), Timeline(Reduced(state, action)), if Effective(state, action) then 1 else 0)
  {
    hide EditedSnapshot, Remembers, LastTwenty;
    NothingNewRemembers(Timeline(state));
    if Effective(state, action) {
      NewSnapshotRemembers(state.history, state.snapshot, Reduced(state, action).snapshot);
    }
  }

  lemma NothingNewRemembers(timeline: seq<EditorSnapshot>)
    requires |timeline| <= HISTORY + 1
    ensures Remembers(timeline, timeline, 0)
  {
  }

  /**
   * Any run of actions with up to twenty effective edits, followed by as many undos, restores the snapshot and
   * its text; of the earlier history it keeps what then still fits.
   */
  lemma UndosRestore(state: EditorState, actions: seq<EditorAction>)
    requires state.content == Serialized(state.snapshot) && |state.history| <= HISTORY && NoUndo(actions)
    requires Effects(state, actions) <= HISTORY
    ensures var k := Effects(state, actions);
            var after := Run(Run(state, actions), Undos(k));
            && after.snapshot == state.snapshot && after.content == state.content
            && after.history
               == state.history[if |state.history| + k > HISTORY then |state.history| + k - HISTORY else 0..]
  {
    hide Run, Effects, EditedSnapshot;
    var edited := Run(state, actions);
    var k := Effects(state, actions);
    RunRemembers(state, actions);
    UndosGoBack(edited, k);
    ContentFollows(state, actions);
    var now, past := Timeline(edited), Timeline(state);
    var cut := |past| + k - |now|;
    assert now[|now| - k - 1] == past[|past| - 1];
    assert edited.history[..|edited.history| - k] == state.history[cut..] by {
      assert forall j :: 0 <= j < |now| - k - 1 ==>
               edited.history[j] == now[j] && past[cut + j] == state.history[cut + j];
    }
  }

  lemma {:induction false} ContentFollows(state: EditorState, actions: seq<EditorAction>)
    requires state.content == Serialized(state.snapshot)
    ensures Run(state, actions).content == Serialized(Run(state, actions).snapshot)
    decreases |actions|
  {
    hide EditedSnapshot;
    if actions != [] {
      ContentFollows(Reduced(state, actions[0]), actions[1..]);
    }
  }

  /** Further undos change nothing: after twenty or more effective edits undo reaches twenty back and no further. */
  lemma UndoReachesTwenty(state: EditorState, actions: seq<EditorAction>, n: nat)
    requires state.content == Serialized(state.snapshot) && |state.history| <= HISTORY && NoUndo(actions)
    requires Effects(state, actions) == HISTORY <= n
    ensures Run(Run(state, actions), Undos(n)).snapshot == state.snapshot
    ensures Run(Run(state, actions), Undos(n)).history == []
  {
    var edited := Run(state, actions);
    UndosRestore(state, actions);
    UndosSplit(edited, HISTORY, n - HISTORY);
    NothingToUndo(Run(edited, Undos(HISTORY)), n - HISTORY);
  }

  lemma {:induction false} UndosSplit(state: EditorState, m: nat, n: nat)
    ensures Run(state, Undos(m + n)) == Run(Run(state, Undos(m)), Undos(n))
    decreases m
  {
    if m != 0 {
      assert Undos(m + n)[1..] == Undos(m - 1 + n) && Undos(m)[1..] == Undos(m - 1);
      UndosSplit(Reduced(state, Undos(m)[0]), m - 1, n);
    }
  }

  lemma {:induction false} NothingToUndo(state: EditorState, n: nat)
    requires state.history == []
    ensures Run(state, Undos(n)) == state
    decreases n
  {
    if n != 0 {
      assert Undos(n)[1..] == Undos(n - 1);
      NothingToUndo(state, n - 1);
    }
  }
}
