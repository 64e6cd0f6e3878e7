/**
 * The three-way-choice merge of two resume snapshots: which differences are listed as conflicts,
 * and which snapshot the choices made for them produce.
 */
module SnapshotMerge {
  import opened Sequences
  import opened Wrappers
  import opened ReconcileOrder

  datatype Bullet = Bullet(id: Key, text: string, factRefs: seq<string>)

  datatype Section = Section(id: Key, kind: string, title: string, items: seq<Bullet>)

  datatype Snapshot = Snapshot(title: string, target: Option<string>, sections: seq<Section>)

  datatype Choice = Local | Cloud

  /** The identifiers under which conflicts are listed and choices are looked up. */
  datatype ConflictId =
    | SnapshotTitle
    | SnapshotTarget
    | SectionPresence(section: Key)
    | SectionsOrder
    | SectionTitle(section: Key)
    | SectionType(section: Key)
    | BulletPresence(section: Key, bullet: Key)
    | BulletsOrder(section: Key)
    | BulletText(section: Key, bullet: Key)
    | BulletFactRefs(section: Key, bullet: Key)

  type Choices = map<ConflictId, Choice>

  function BulletId(b: Bullet): Key { b.id }

  function SectionId(s: Section): Key { s.id }

  function Ids<T>(items: seq<T>, key: T -> Key): (r: seq<Key>)
    ensures |r| == |items|
  {
    seq(|items|, i requires 0 <= i < |items| => key(items[i]))
  }

  /** `new Map(items.map(item => [item.id, item]))`: of two items with one id the later stays. */
  function ById<T>(items: seq<T>, key: T -> Key): (m: map<Key, T>)
    ensures m.Keys == Elems(Ids(items, key))
  {
    if items == [] then map[]
    else
      var last := |items| - 1;
      assert Ids(items, key) == Ids(items[..last], key) + [key(items[last])];
      ById(items[..last], key)[key(items[last]) := items[last]]
  }

  function SectionOrder(s: Snapshot): seq<Key> { Ids(s.sections, SectionId) }

  function BulletOrder(s: Section): seq<Key> { Ids(s.items, BulletId) }

  function SectionsOf(s: Snapshot): (m: map<Key, Section>)
    ensures m.Keys == Elems(SectionOrder(s))
  {
    ById(s.sections, SectionId)
  }

  function BulletsOf(s: Section): (m: map<Key, Bullet>)
    ensures m.Keys == Elems(BulletOrder(s))
  {
    ById(s.items, BulletId)
  }

  /** Ids are unique in each list: what the editor and the server keep of every snapshot. */
  predicate UniqueIds(s: Snapshot) {
    && NoDup(SectionOrder(s))
    && forall i :: 0 <= i < |s.sections| ==> NoDup(BulletOrder(s.sections[i]))
  }

  // ----- the conflict list -----

  /** The list `[...cloudIds, ...localIds.filter(id => !cloud.has(id))]` over which presence is compared. */
  function AllIds(localIds: seq<Key>, cloudIds: seq<Key>): (r: seq<Key>)
    ensures Elems(r) == Elems(localIds) + Elems(cloudIds)
  {
    cloudIds + Project(localIds, Elems(localIds) - Elems(cloudIds))
  }

  function OnlyOneSide(localIds: seq<Key>, cloudIds: seq<Key>): set<Key> {
    (Elems(localIds) - Elems(cloudIds)) + (Elems(cloudIds) - Elems(localIds))
  }

  function SectionPresences(ids: seq<Key>): seq<ConflictId> {
    seq(|ids|, i requires 0 <= i < |ids| => SectionPresence(ids[i]))
  }

  function BulletPresences(section: Key, ids: seq<Key>): seq<ConflictId> {
    seq(|ids|, i requires 0 <= i < |ids| => BulletPresence(section, ids[i]))
  }

  function When(differs: bool, id: ConflictId): seq<ConflictId> {
    if differs then [id] else []
  }

  /** The conflict about the content of one bullet: its text, or its fact references under equal text. */
  function BulletConflict(section: Key, local: Bullet, cloud: map<Key, Bullet>): seq<ConflictId> {
    if local.id !in cloud then []
    else if local.text != cloud[local.id].text then [BulletText(section, local.id)]
    else When(local.factRefs != cloud[local.id].factRefs, BulletFactRefs(section, local.id))
  }

  function BulletConflicts(section: Key, items: seq<Bullet>, cloud: map<Key, Bullet>): seq<ConflictId> {
    if items == [] then []
    else BulletConflicts(section, items[..|items| - 1], cloud) + BulletConflict(section, items[|items| - 1], cloud)
  }

  function SectionConflicts(local: Section, cloud: Section): seq<ConflictId> {
    var localOrder, cloudOrder := BulletOrder(local), BulletOrder(cloud);
    When(local.title != cloud.title, SectionTitle(local.id))
    + When(local.kind != cloud.kind, SectionType(local.id))
    + BulletPresences(local.id, Project(AllIds(localOrder, cloudOrder), OnlyOneSide(localOrder, cloudOrder)))
    + When(localOrder != cloudOrder, BulletsOrder(local.id))
    + BulletConflicts(local.id, local.items, BulletsOf(cloud))
  }

  function SharedSectionConflicts(sections: seq<Section>, cloud: map<Key, Section>): seq<ConflictId> {
    if sections == [] then []
    else
      var last := sections[|sections| - 1];
      SharedSectionConflicts(sections[..|sections| - 1], cloud)
      + if last.id in cloud then SectionConflicts(last, cloud[last.id]) else []
  }

  /** The ids of `resumeSnapshotConflicts(local, cloud)`, in its order. */
  function Conflicts(local: Snapshot, cloud: Snapshot): seq<ConflictId> {
    var localOrder, cloudOrder := SectionOrder(local), SectionOrder(cloud);
    When(local.title != cloud.title, SnapshotTitle)
    + When(local.target != cloud.target, SnapshotTarget)
    + SectionPresences(Project(AllIds(localOrder, cloudOrder), OnlyOneSide(localOrder, cloudOrder)))
    + When(localOrder != cloudOrder, SectionsOrder)
    + SharedSectionConflicts(local.sections, SectionsOf(cloud))
  }

  lemma {:induction false} ProjectAgrees(s: seq<Key>, a: set<Key>, b: set<Key>)
    requires forall k :: k in s ==> (k in a <==> k in b)
    ensures Project(s, a) == Project(s, b)
  {
    if s != [] {
      ProjectAgrees(s[1..], a, b);
    }
  }

  /** What only the cloud has comes first, each side in its own order. */
  lemma PresenceIsCloudFirst(localIds: seq<Key>, cloudIds: seq<Key>)
    ensures Project(AllIds(localIds, cloudIds), OnlyOneSide(localIds, cloudIds))
            == Project(cloudIds, Elems(cloudIds) - Elems(localIds))
               + Project(localIds, Elems(localIds) - Elems(cloudIds))
  {
    hide Project;
    var onlyLocal, one := Elems(localIds) - Elems(cloudIds), OnlyOneSide(localIds, cloudIds);
    ProjectAppend(cloudIds, Project(localIds, onlyLocal), one);
    ProjectTwice(localIds, onlyLocal, one);
    ProjectAgrees(cloudIds, one, Elems(cloudIds) - Elems(localIds));
    assert onlyLocal * one == onlyLocal;
  }

  /** `for (const id of ids) if (Boolean(local.get(id)) !== Boolean(cloud.get(id)))`: the ids it reports. */
  method PresenceDifferences<T>(local: map<Key, T>, cloud: map<Key, T>, localIds: seq<Key>, cloudIds: seq<Key>)
    returns (r: seq<Key>)
    requires local.Keys == Elems(localIds) && cloud.Keys == Elems(cloudIds)
    ensures r == Project(AllIds(localIds, cloudIds), OnlyOneSide(localIds, cloudIds))
    ensures r == Project(cloudIds, Elems(cloudIds) - Elems(localIds))
                 + Project(localIds, Elems(localIds) - Elems(cloudIds))
  {
    hide AllIds, Project;
    PresenceIsCloudFirst(localIds, cloudIds);
    var ids := AllIds(localIds, cloudIds);
    r := [];
    for n := 0 to |ids|
      invariant r == Project(ids[..n], OnlyOneSide(localIds, cloudIds))
    {
      ProjectStep(ids, n, OnlyOneSide(localIds, cloudIds));
      if (ids[n] in local) != (ids[n] in cloud) {
        r := r + [ids[n]];
      }
    }
    assert ids[..|ids|] == ids;
  }

  method ContentConflicts(section: Key, items: seq<Bullet>, cloudBullets: map<Key, Bullet>)
    returns (conflicts: seq<ConflictId>)
    ensures conflicts == BulletConflicts(section, items, cloudBullets)
  {
    conflicts := [];
    for n := 0 to |items|
      invariant conflicts == BulletConflicts(section, items[..n], cloudBullets)
    {
      var localBullet := items[n];
      assert items[..n + 1][..n] == items[..n];
      if localBullet.id !in cloudBullets {
        continue;
      }
      var cloudBullet := cloudBullets[localBullet.id];
      if localBullet.text != cloudBullet.text {
        conflicts := conflicts + [BulletText(section, localBullet.id)];
      } else if localBullet.factRefs != cloudBullet.factRefs {
        conflicts := conflicts + [BulletFactRefs(section, localBullet.id)];
      }
    }
    assert items[..|items|] == items;
  }

  method ConflictsOfSection(local: Section, cloud: Section) returns (conflicts: seq<ConflictId>)
    ensures conflicts == SectionConflicts(local, cloud)
  {
    hide AllIds, OnlyOneSide, BulletsOf, BulletOrder, Elems, Project, BulletPresences;
    conflicts := [];
    if local.title != cloud.title {
      conflicts := conflicts + [SectionTitle(local.id)];
    }
    if local.kind != cloud.kind {
      conflicts := conflicts + [SectionType(local.id)];
    }
    assert conflicts == When(local.title != cloud.title, SectionTitle(local.id))
                        + When(local.kind != cloud.kind, SectionType(local.id));
    var localOrder, cloudOrder := BulletOrder(local), BulletOrder(cloud);
    var cloudBullets := BulletsOf(cloud);
    var differing := PresenceDifferences(BulletsOf(local), cloudBullets, localOrder, cloudOrder);
    conflicts := conflicts + BulletPresences(local.id, differing);
    if localOrder != cloudOrder {
      conflicts := conflicts + [BulletsOrder(local.id)];
    }
    var found := ContentConflicts(local.id, local.items, cloudBullets);
    conflicts := conflicts + found;
  }

  method ConflictsInSharedSections(sections: seq<Section>, cloudSections: map<Key, Section>)
    returns (conflicts: seq<ConflictId>)
    ensures conflicts == SharedSectionConflicts(sections, cloudSections)
  {
    hide SectionConflicts;
    conflicts := [];
    for n := 0 to |sections|
      invariant conflicts == SharedSectionConflicts(sections[..n], cloudSections)
    {
      assert sections[..n + 1][..n] == sections[..n];
      if sections[n].id !in cloudSections {
        continue;
      }
      var found := ConflictsOfSection(sections[n], cloudSections[sections[n].id]);
      conflicts := conflicts + found;
    }
    assert sections[..|sections|] == sections;
  }

  method ResumeSnapshotConflicts(local: Snapshot, cloud: Snapshot) returns (conflicts: seq<ConflictId>)
    ensures conflicts == Conflicts(local, cloud)
  {
    hide AllIds, OnlyOneSide, SectionsOf, SectionOrder, Elems, Project, SectionPresences, SectionConflicts;
    conflicts := [];
    if local.title != cloud.title {
      conflicts := conflicts + [SnapshotTitle];
    }
    if local.target != cloud.target {
      conflicts := conflicts + [SnapshotTarget];
    }
    assert conflicts == When(local.title != cloud.title, SnapshotTitle)
                        + When(local.target != cloud.target, SnapshotTarget);
    var localOrder, cloudOrder := SectionOrder(local), SectionOrder(cloud);
    var cloudSections := SectionsOf(cloud);
    var differing := PresenceDifferences(SectionsOf(local), cloudSections, localOrder, cloudOrder);
    conflicts := conflicts + SectionPresences(differing);
    if localOrder != cloudOrder {
      conflicts := conflicts + [SectionsOrder];
    }
    var found := ConflictsInSharedSections(local.sections, cloudSections);
    conflicts := conflicts + found;
  }

  // ----- the merge -----

  /** `chosen`: the choice made for a conflict, or the error that names it. */
  function Chosen(choices: Choices, id: ConflictId): (r: Result<Choice, ConflictId>) {
    if id in choices then Ok(choices[id]) else Err(id)
  }

  /** The choice, where one is made; the merge asks for no other. */
  function Side(choices: Choices, id: ConflictId): Choice {
    if id in choices then choices[id] else Cloud
  }

  function Pick<T>(choice: Choice, local: T, cloud: T): T {
    if choice == Local then local else cloud
  }

  function PickIf<T(==)>(choices: Choices, id: ConflictId, local: T, cloud: T): T {
    if local == cloud then cloud else Pick(Side(choices, id), local, cloud)
  }

  function MergedBullet(section: Key, local: Bullet, cloud: Bullet, choices: Choices): Bullet {
    if local.text != cloud.text then Pick(Side(choices, BulletText(section, local.id)), local, cloud)
    else if local.factRefs != cloud.factRefs then Pick(Side(choices, BulletFactRefs(section, local.id)), local, cloud)
    else cloud
  }

  /** An entry that one side lacks is kept when the choice falls on the side that has it. */
  function FromOneSide<T>(id: Key, local: map<Key, T>, cloud: map<Key, T>, choice: Choice): Option<T> {
    var source := Pick(choice, local, cloud);
    if id in source then Some(source[id]) else None
  }

  /** What the merge keeps of the bullets with one id. */
  function KeptBullet(section: Key, local: map<Key, Bullet>, cloud: map<Key, Bullet>, choices: Choices,
                      id: Key): Option<Bullet>
  {
    if id in local && id in cloud then Some(MergedBullet(section, local[id], cloud[id], choices))
    else FromOneSide(id, local, cloud, Side(choices, BulletPresence(section, id)))
  }

  function KeptBullets(section: Key, local: map<Key, Bullet>, cloud: map<Key, Bullet>,
                       choices: Choices): map<Key, Bullet>
  {
    map id | id in local.Keys + cloud.Keys && KeptBullet(section, local, cloud, choices, id).Some?
      :: KeptBullet(section, local, cloud, choices, id).value
  }

  function Preferred<T>(choice: Choice, local: T, cloud: T): (T, T) {
    if choice == Local then (local, cloud) else (cloud, local)
  }

  function OrderChoice(choices: Choices, id: ConflictId, local: seq<Key>, cloud: seq<Key>): Choice {
    if local == cloud then Cloud else Side(choices, id)
  }

  /** The bullet order that the choice prefers, and the other one. */
  function BulletOrders(local: Section, cloud: Section, choices: Choices): (seq<Key>, seq<Key>) {
    Preferred(OrderChoice(choices, BulletsOrder(local.id), BulletOrder(local), BulletOrder(cloud)),
              BulletOrder(local), BulletOrder(cloud))
  }

  /** The section order that the choice prefers, and the other one. */
  function SectionOrders(local: Snapshot, cloud: Snapshot, choices: Choices): (seq<Key>, seq<Key>) {
    Preferred(OrderChoice(choices, SectionsOrder, SectionOrder(local), SectionOrder(cloud)),
              SectionOrder(local), SectionOrder(cloud))
  }

  function MergedItems(local: Section, cloud: Section, choices: Choices): seq<Bullet> {
    var orders := BulletOrders(local, cloud, choices);
    Arranged(KeptBullets(local.id, BulletsOf(local), BulletsOf(cloud), choices), orders.0, orders.1)
  }

  function MergedSection(local: Section, cloud: Section, choices: Choices): Section {
    Section(local.id,
            PickIf(choices, SectionType(local.id), local.kind, cloud.kind),
            PickIf(choices, SectionTitle(local.id), local.title, cloud.title),
            MergedItems(local, cloud, choices))
  }

  /** What the merge keeps of the sections with one id. */
  function KeptSection(local: map<Key, Section>, cloud: map<Key, Section>, choices: Choices, id: Key): Option<Section> {
    if id in local && id in cloud then Some(MergedSection(local[id], cloud[id], choices))
    else FromOneSide(id, local, cloud, Side(choices, SectionPresence(id)))
  }

  function KeptSections(local: map<Key, Section>, cloud: map<Key, Section>, choices: Choices): map<Key, Section> {
    map id | id in local.Keys + cloud.Keys && KeptSection(local, cloud, choices, id).Some?
      :: KeptSection(local, cloud, choices, id).value
  }

  /** The snapshot that the choices describe. */
  function Merged(local: Snapshot, cloud: Snapshot, choices: Choices): Snapshot {
    var orders := SectionOrders(local, cloud, choices);
    Snapshot(PickIf(choices, SnapshotTitle, local.title, cloud.title),
             PickIf(choices, SnapshotTarget, local.target, cloud.target),
             Arranged(KeptSections(SectionsOf(local), SectionsOf(cloud), choices), orders.0, orders.1))
  }

  // ----- what a conflict is -----

  /** A difference inside a section that both sides have. */
  predicate SectionDiffers(id: ConflictId, local: Section, cloud: Section) {
    var l, c := BulletsOf(local), BulletsOf(cloud);
    match id
    case SectionTitle(_) => local.title != cloud.title
    case SectionType(_) => local.kind != cloud.kind
    case BulletPresence(_, b) => (b in l) != (b in c)
    case BulletsOrder(_) => BulletOrder(local) != BulletOrder(cloud)
    case BulletText(_, b) => b in l && b in c && l[b].text != c[b].text
    case BulletFactRefs(_, b) => b in l && b in c && l[b].text == c[b].text && l[b].factRefs != c[b].factRefs
    case _ => false
  }

  /** The two snapshots differ in the place that the id names. */
  predicate Differs(id: ConflictId, local: Snapshot, cloud: Snapshot) {
    var l, c := SectionsOf(local), SectionsOf(cloud);
    match id
    case SnapshotTitle => local.title != cloud.title
    case SnapshotTarget => local.target != cloud.target
    case SectionPresence(s) => (s in l) != (s in c)
    case SectionsOrder => SectionOrder(local) != SectionOrder(cloud)
    case _ => id.section in l && id.section in c && SectionDiffers(id, l[id.section], c[id.section])
  }

  ghost predicate AllChosen(local: Snapshot, cloud: Snapshot, choices: Choices) {
    forall id :: Differs(id, local, cloud) ==> id in choices
  }

  lemma {:induction false} InBulletConflicts(section: Key, items: seq<Bullet>, cloud: map<Key, Bullet>, id: ConflictId)
    ensures id in BulletConflicts(section, items, cloud)
       <==> exists i :: 0 <= i < |items| && id in BulletConflict(section, items[i], cloud)
  {
    if items != [] {
      var last := |items| - 1;
      InBulletConflicts(section, items[..last], cloud, id);
      assert forall i :: 0 <= i < last ==> items[..last][i] == items[i];
    }
  }

  lemma {:induction false} InSharedSectionConflicts(sections: seq<Section>, cloud: map<Key, Section>, id: ConflictId)
    ensures id in SharedSectionConflicts(sections, cloud)
       <==> exists i :: 0 <= i < |sections| && sections[i].id in cloud
                           && id in SectionConflicts(sections[i], cloud[sections[i].id])
  {
    hide SectionConflicts;
    if sections != [] {
      var last := |sections| - 1;
      InSharedSectionConflicts(sections[..last], cloud, id);
      assert forall i :: 0 <= i < last ==> sections[..last][i] == sections[i];
    }
  }

  lemma {:induction false} ByIdEntry<T>(items: seq<T>, key: T -> Key, k: Key)
    requires k in ById(items, key)
    ensures ById(items, key)[k] in items && key(ById(items, key)[k]) == k
  {
    var last := |items| - 1;
    assert items == items[..last] + [items[last]];
    if k != key(items[last]) {
      ByIdEntry(items[..last], key, k);
    }
  }

  /** With unique ids, the Map finds every item under its id. */
  lemma {:induction false} ByIdUnique<T>(items: seq<T>, key: T -> Key, i: nat)
    requires NoDup(Ids(items, key)) && i < |items|
    ensures key(items[i]) in ById(items, key) && ById(items, key)[key(items[i])] == items[i]
  {
    var last := |items| - 1;
    assert Ids(items, key) == Ids(items[..last], key) + [key(items[last])];
    if i < last {
      assert forall a :: 0 <= a < last ==> Ids(items[..last], key)[a] == Ids(items, key)[a];
      assert Ids(items, key)[i] != Ids(items, key)[last];
      ByIdUnique(items[..last], key, i);
    }
  }

  lemma BulletEntry(s: Section, b: Key)
    requires b in BulletsOf(s)
    ensures BulletsOf(s)[b] in s.items && BulletsOf(s)[b].id == b
  {
    ByIdEntry(s.items, BulletId, b);
  }

  lemma SectionEntry(s: Snapshot, id: Key)
    requires id in SectionsOf(s)
    ensures SectionsOf(s)[id] in s.sections && SectionsOf(s)[id].id == id
  {
    ByIdEntry(s.sections, SectionId, id);
  }

  lemma ConcatElems(a: seq<Key>, b: seq<Key>)
    ensures Elems(a + b) == Elems(a) + Elems(b)
  {
  }

  predicate InsideSection(id: ConflictId, local: Section, cloud: Section) {
    SectionDiffers(id, local, cloud) && id.section == local.id
  }

  /** The ids between two bullet or section lists are reported where exactly one side has them. */
  lemma PresenceListed(localIds: seq<Key>, cloudIds: seq<Key>, k: Key)
    ensures k in Project(AllIds(localIds, cloudIds), OnlyOneSide(localIds, cloudIds))
       <==> (k in Elems(localIds)) != (k in Elems(cloudIds))
  {
    assert k in AllIds(localIds, cloudIds) <==> k in Elems(AllIds(localIds, cloudIds));
  }

  lemma InSectionPresences(ids: seq<Key>, id: ConflictId)
    ensures id in SectionPresences(ids) <==> id.SectionPresence? && id.section in ids
  {
    if id.SectionPresence? && id.section in ids {
      var i :| 0 <= i < |ids| && ids[i] == id.section;
      assert SectionPresences(ids)[i] == id;
    }
  }

  lemma InBulletPresences(section: Key, ids: seq<Key>, id: ConflictId)
    ensures id in BulletPresences(section, ids) <==> id.BulletPresence? && id.section == section && id.bullet in ids
  {
    if id.BulletPresence? && id.section == section && id.bullet in ids {
      var i :| 0 <= i < |ids| && ids[i] == id.bullet;
      assert BulletPresences(section, ids)[i] == id;
    }
  }

  /** A section lists each of its differences. */
  lemma SectionDifferenceListed(id: ConflictId, local: Section, cloud: Section)
    requires InsideSection(id, local, cloud)
    ensures id in SectionConflicts(local, cloud)
  {
    hide ById, Ids, AllIds, OnlyOneSide, Project, BulletConflicts, BulletPresences;
    var c := BulletsOf(cloud);
    if id.BulletPresence? {
      PresenceListed(BulletOrder(local), BulletOrder(cloud), id.bullet);
      var localOrder, cloudOrder := BulletOrder(local), BulletOrder(cloud);
      InBulletPresences(local.id, Project(AllIds(localOrder, cloudOrder), OnlyOneSide(localOrder, cloudOrder)), id);
    } else if id.BulletText? || id.BulletFactRefs? {
      BulletEntry(local, id.bullet);
      var i :| 0 <= i < |local.items| && local.items[i] == BulletsOf(local)[id.bullet];
      assert id in BulletConflict(local.id, local.items[i], c);
      InBulletConflicts(local.id, local.items, c, id);
    }
  }

  lemma ListedPresenceDiffers(id: ConflictId, local: Section, cloud: Section)
    requires id in BulletPresences(local.id, Project(AllIds(BulletOrder(local), BulletOrder(cloud)),
                                                     OnlyOneSide(BulletOrder(local), BulletOrder(cloud))))
    ensures InsideSection(id, local, cloud)
  {
    hide ById, Ids, AllIds, OnlyOneSide, Project, BulletPresences;
    var localOrder, cloudOrder := BulletOrder(local), BulletOrder(cloud);
    InBulletPresences(local.id, Project(AllIds(localOrder, cloudOrder), OnlyOneSide(localOrder, cloudOrder)), id);
    PresenceListed(localOrder, cloudOrder, id.bullet);
  }

  lemma ListedContentDiffers(id: ConflictId, local: Section, cloud: Section)
    requires NoDup(BulletOrder(local)) && id in BulletConflicts(local.id, local.items, BulletsOf(cloud))
    ensures InsideSection(id, local, cloud)
  {
    hide ById, Ids, BulletConflicts;
    InBulletConflicts(local.id, local.items, BulletsOf(cloud), id);
    var i :| 0 <= i < |local.items| && id in BulletConflict(local.id, local.items[i], BulletsOf(cloud));
    ByIdUnique(local.items, BulletId, i);
  }

  /** With unique bullet ids it lists nothing else. */
  lemma ListedInSectionDiffers(id: ConflictId, local: Section, cloud: Section)
    requires NoDup(BulletOrder(local)) && id in SectionConflicts(local, cloud)
    ensures InsideSection(id, local, cloud)
  {
    hide BulletsOf, AllIds, OnlyOneSide, Project, BulletConflicts, BulletPresences, BulletOrder;
    var localOrder, cloudOrder := BulletOrder(local), BulletOrder(cloud);
    if id in BulletPresences(local.id, Project(AllIds(localOrder, cloudOrder), OnlyOneSide(localOrder, cloudOrder))) {
      ListedPresenceDiffers(id, local, cloud);
    } else if id in BulletConflicts(local.id, local.items, BulletsOf(cloud)) {
      ListedContentDiffers(id, local, cloud);
    }
  }

  /** Every difference is listed, whatever the ids. */
  lemma DifferenceIsListed(id: ConflictId, local: Snapshot, cloud: Snapshot)
    requires Differs(id, local, cloud)
    ensures id in Conflicts(local, cloud)
  {
    hide ById, Ids, AllIds, OnlyOneSide, Project, SectionPresences, SharedSectionConflicts, SectionConflicts,
         SectionDiffers;
    var l, c := SectionsOf(local), SectionsOf(cloud);
    if id.SectionPresence? {
      PresenceListed(SectionOrder(local), SectionOrder(cloud), id.section);
      var localOrder, cloudOrder := SectionOrder(local), SectionOrder(cloud);
      InSectionPresences(Project(AllIds(localOrder, cloudOrder), OnlyOneSide(localOrder, cloudOrder)), id);
    } else if !id.SnapshotTitle? && !id.SnapshotTarget? && !id.SectionsOrder? {
      SectionEntry(local, id.section);
      SectionDifferenceListed(id, l[id.section], c[id.section]);
      var i :| 0 <= i < |local.sections| && local.sections[i] == l[id.section];
      InSharedSectionConflicts(local.sections, c, id);
    }
  }

  /** With unique ids on the local side, nothing but a difference is listed. */
  lemma ListedIsDifference(id: ConflictId, local: Snapshot, cloud: Snapshot)
    requires UniqueIds(local) && id in Conflicts(local, cloud)
    ensures Differs(id, local, cloud)
  {
    hide ById, Ids, AllIds, OnlyOneSide, Project, SectionPresences, SharedSectionConflicts, SectionConflicts;
    var c := SectionsOf(cloud);
    var differing := Project(AllIds(SectionOrder(local), SectionOrder(cloud)),
                             OnlyOneSide(SectionOrder(local), SectionOrder(cloud)));
    InSectionPresences(differing, id);
    if id in SectionPresences(differing) {
      PresenceListed(SectionOrder(local), SectionOrder(cloud), id.section);
    } else if id in SharedSectionConflicts(local.sections, c) {
      InSharedSectionConflicts(local.sections, c, id);
      var i :| 0 <= i < |local.sections| && local.sections[i].id in c
               && id in SectionConflicts(local.sections[i], c[local.sections[i].id]);
      ListedInSectionDiffers(id, local.sections[i], c[local.sections[i].id]);
      ByIdUnique(local.sections, SectionId, i);
    }
  }

  // ----- which choice decides which place -----

  /** One place of the snapshot: what the sides agree on stays, else the choice under the place's own id decides. */
  predicate Decided<T(==)>(choices: Choices, id: ConflictId, local: T, cloud: T, result: T) {
    if local == cloud then result == local
    else id in choices && result == match choices[id] case Local => local case Cloud => cloud
  }

  /** An entry of one side is in the result exactly when its presence was decided for that side. */
  predicate PresenceDecided(choices: Choices, id: ConflictId, inLocal: bool, inCloud: bool, kept: bool) {
    if inLocal == inCloud then kept == inLocal
    else id in choices && (kept <==> choices[id] == if inLocal then Local else Cloud)
  }

  /** The side whose order was chosen leads; `result` reconciles the other one with it. */
  predicate OrderDecided(choices: Choices, id: ConflictId, local: seq<Key>, cloud: seq<Key>, result: seq<Key>) {
    if local == cloud then result == Reconciled(Elems(result), local, local)
    else
      id in choices && result == match choices[id]
                                 case Local => Reconciled(Elems(result), local, cloud)
                                 case Cloud => Reconciled(Elems(result), cloud, local)
  }

  /** A shared bullet comes whole from one side: the text's choice decides, under equal texts the references' choice. */
  predicate BulletDecided(choices: Choices, section: Key, local: Bullet, cloud: Bullet, result: Bullet) {
    if local.text == cloud.text then Decided(choices, BulletFactRefs(section, local.id), local, cloud, result)
    else Decided(choices, BulletText(section, local.id), local, cloud, result)
  }

  /** The bullet is what its id stands for: decided between the sides, or the one side's own. */
  predicate ItemDecided(choices: Choices, section: Key, local: map<Key, Bullet>, cloud: map<Key, Bullet>, b: Bullet) {
    if b.id in local && b.id in cloud then BulletDecided(choices, section, local[b.id], cloud[b.id], b)
    else if b.id in local then b == local[b.id]
    else b.id in cloud && b == cloud[b.id]
  }

  ghost predicate SectionDecided(choices: Choices, local: Section, cloud: Section, result: Section) {
    var l, c := BulletsOf(local), BulletsOf(cloud);
    && result.id == local.id
    && Decided(choices, SectionTitle(local.id), local.title, cloud.title, result.title)
    && Decided(choices, SectionType(local.id), local.kind, cloud.kind, result.kind)
    && OrderDecided(choices, BulletsOrder(local.id), BulletOrder(local), BulletOrder(cloud), BulletOrder(result))
    && (forall b :: PresenceDecided(choices, BulletPresence(local.id, b), b in l, b in c, b in BulletOrder(result)))
    && forall b :: b in result.items ==> ItemDecided(choices, local.id, l, c, b)
  }

  ghost predicate EntryDecided(choices: Choices, local: map<Key, Section>, cloud: map<Key, Section>, s: Section) {
    if s.id in local && s.id in cloud then SectionDecided(choices, local[s.id], cloud[s.id], s)
    else if s.id in local then s == local[s.id]
    else s.id in cloud && s == cloud[s.id]
  }

  /** Each place of the result takes the side that the choice under its own id names. */
  ghost predicate FollowsChoices(choices: Choices, local: Snapshot, cloud: Snapshot, result: Snapshot) {
    var l, c := SectionsOf(local), SectionsOf(cloud);
    && Decided(choices, SnapshotTitle, local.title, cloud.title, result.title)
    && Decided(choices, SnapshotTarget, local.target, cloud.target, result.target)
    && OrderDecided(choices, SectionsOrder, SectionOrder(local), SectionOrder(cloud), SectionOrder(result))
    && (forall s :: PresenceDecided(choices, SectionPresence(s), s in l, s in c, s in SectionOrder(result)))
    && forall s :: s in result.sections ==> EntryDecided(choices, l, c, s)
  }

  /** The keys of an arrangement are the reconciled order, entry by entry. */
  lemma ArrangedOrder<T>(retained: map<Key, T>, key: T -> Key, preferred: seq<Key>, secondary: seq<Key>)
    requires forall k :: k in retained ==> key(retained[k]) == k
    ensures Ids(Arranged(retained, preferred, secondary), key) == Reconciled(retained.Keys, preferred, secondary)
    ensures forall t :: t in Arranged(retained, preferred, secondary) ==> key(t) in retained && retained[key(t)] == t
  {
    hide Ordered;
    OrderedKeys(retained.Keys, preferred, secondary, |secondary|);
    var keys, entries := Reconciled(retained.Keys, preferred, secondary), Arranged(retained, preferred, secondary);
    forall i | 0 <= i < |keys|
      ensures keys[i] in retained && entries[i] == retained[keys[i]] && key(entries[i]) == keys[i]
    {
      assert keys[i] in Elems(keys);
    }
  }

  /** A bullet survives whole, with its own fact references, and under its own id. */
  lemma KeptBulletSource(local: Section, cloud: Section, choices: Choices, k: Key)
    requires local.id == cloud.id && k in BulletsOf(local).Keys + BulletsOf(cloud).Keys
    ensures var kept := KeptBullet(local.id, BulletsOf(local), BulletsOf(cloud), choices, k);
            kept.Some? ==> kept.value.id == k && (kept.value in local.items || kept.value in cloud.items)
  {
    hide BulletsOf;
    if k in BulletsOf(local) { BulletEntry(local, k); }
    if k in BulletsOf(cloud) { BulletEntry(cloud, k); }
  }

  lemma KeptSectionId(local: Snapshot, cloud: Snapshot, choices: Choices, k: Key)
    requires k in SectionsOf(local).Keys + SectionsOf(cloud).Keys
    ensures var kept := KeptSection(SectionsOf(local), SectionsOf(cloud), choices, k);
            kept.Some? ==> kept.value.id == k
  {
    hide SectionsOf, MergedItems;
    if k in SectionsOf(local) { SectionEntry(local, k); }
    if k in SectionsOf(cloud) { SectionEntry(cloud, k); }
  }

  /** The order in which the merge lists what it keeps, and the entry behind each id. */
  lemma MergedOrder(local: Snapshot, cloud: Snapshot, choices: Choices)
    ensures var kept := KeptSections(SectionsOf(local), SectionsOf(cloud), choices);
            var orders := SectionOrders(local, cloud, choices);
            && SectionOrder(Merged(local, cloud, choices)) == Reconciled(kept.Keys, orders.0, orders.1)
            && forall s :: s in Merged(local, cloud, choices).sections ==> s.id in kept && kept[s.id] == s
  {
    hide SectionsOf, Arranged, KeptSection;
    var kept := KeptSections(SectionsOf(local), SectionsOf(cloud), choices);
    forall k | k in kept ensures SectionId(kept[k]) == k {
      KeptSectionId(local, cloud, choices, k);
    }
    var orders := SectionOrders(local, cloud, choices);
    ArrangedOrder(kept, SectionId, orders.0, orders.1);
  }

  lemma MergedItemOrder(local: Section, cloud: Section, choices: Choices)
    requires local.id == cloud.id
    ensures var kept := KeptBullets(local.id, BulletsOf(local), BulletsOf(cloud), choices);
            var orders := BulletOrders(local, cloud, choices);
            BulletOrder(MergedSection(local, cloud, choices)) == Reconciled(kept.Keys, orders.0, orders.1)
  {
    hide BulletsOf, Arranged, KeptBullet;
    var kept := KeptBullets(local.id, BulletsOf(local), BulletsOf(cloud), choices);
    forall k | k in kept ensures BulletId(kept[k]) == k {
      KeptBulletSource(local, cloud, choices, k);
    }
    var orders := BulletOrders(local, cloud, choices);
    ArrangedOrder(kept, BulletId, orders.0, orders.1);
  }

  lemma InsideDiffers(id: ConflictId, local: Snapshot, cloud: Snapshot, s: Key)
    requires s in SectionsOf(local) && s in SectionsOf(cloud)
    requires InsideSection(id, SectionsOf(local)[s], SectionsOf(cloud)[s])
    ensures id.section == s && Differs(id, local, cloud)
  {
    hide SectionsOf;
    SectionEntry(local, s);
  }

  lemma IsKept<T>(items: seq<T>, key: T -> Key, kept: set<Key>, preferred: seq<Key>, secondary: seq<Key>, k: Key)
    requires Ids(items, key) == Reconciled(kept, preferred, secondary)
    requires kept <= Elems(preferred) + Elems(secondary)
    ensures k in Ids(items, key) <==> k in kept
    ensures Elems(Ids(items, key)) == kept
  {
    hide Ids;
    OrderedKeys(kept, preferred, secondary, |secondary|);
    assert secondary[..|secondary|] == secondary;
    assert k in Ids(items, key) <==> k in Elems(Ids(items, key));
  }

  lemma BulletsDecided(local: Section, cloud: Section, choices: Choices)
    requires local.id == cloud.id && forall id :: InsideSection(id, local, cloud) ==> id in choices
    ensures var result := MergedSection(local, cloud, choices);
            && (forall b :: PresenceDecided(choices, BulletPresence(local.id, b), b in BulletsOf(local),
                                            b in BulletsOf(cloud), b in BulletOrder(result)))
            && OrderDecided(choices, BulletsOrder(local.id), BulletOrder(local), BulletOrder(cloud),
                            BulletOrder(result))
  {
    hide BulletsOf, Arranged, Reconciled, MergedBullet, Ids;
    var s, l, c := local.id, BulletsOf(local), BulletsOf(cloud);
    MergedItemOrder(local, cloud, choices);
    var kept, orders := KeptBullets(s, l, c, choices), BulletOrders(local, cloud, choices);
    var result := MergedSection(local, cloud, choices);
    forall b ensures PresenceDecided(choices, BulletPresence(s, b), b in l, b in c, b in BulletOrder(result)) {
      IsKept(result.items, BulletId, kept.Keys, orders.0, orders.1, b);
      assert InsideSection(BulletPresence(s, b), local, cloud) ==> BulletPresence(s, b) in choices;
    }
    IsKept(result.items, BulletId, kept.Keys, orders.0, orders.1, "");
    assert InsideSection(BulletsOrder(s), local, cloud) ==> BulletsOrder(s) in choices;
  }

  lemma ItemsDecided(local: Section, cloud: Section, choices: Choices, b: Bullet)
    requires local.id == cloud.id && forall id :: InsideSection(id, local, cloud) ==> id in choices
    requires b in MergedSection(local, cloud, choices).items
    ensures ItemDecided(choices, local.id, BulletsOf(local), BulletsOf(cloud), b)
  {
    hide BulletsOf, Arranged, KeptBullet;
    var s, l, c := local.id, BulletsOf(local), BulletsOf(cloud);
    var kept, orders := KeptBullets(s, l, c, choices), BulletOrders(local, cloud, choices);
    forall k | k in kept ensures BulletId(kept[k]) == k {
      KeptBulletSource(local, cloud, choices, k);
    }
    ArrangedOrder(kept, BulletId, orders.0, orders.1);
    KeptBulletDecided(local, cloud, choices, b.id);
  }

  lemma KeptBulletDecided(local: Section, cloud: Section, choices: Choices, k: Key)
    requires local.id == cloud.id && k in BulletsOf(local).Keys + BulletsOf(cloud).Keys
    requires forall id :: InsideSection(id, local, cloud) ==> id in choices
    ensures var kept := KeptBullet(local.id, BulletsOf(local), BulletsOf(cloud), choices, k);
            kept.Some? ==> ItemDecided(choices, local.id, BulletsOf(local), BulletsOf(cloud), kept.value)
  {
    hide BulletsOf;
    var s := local.id;
    if k in BulletsOf(local) { BulletEntry(local, k); }
    if k in BulletsOf(cloud) { BulletEntry(cloud, k); }
    assert InsideSection(BulletText(s, k), local, cloud) ==> BulletText(s, k) in choices;
    assert InsideSection(BulletFactRefs(s, k), local, cloud) ==> BulletFactRefs(s, k) in choices;
  }

  lemma MergedSectionDecided(local: Section, cloud: Section, choices: Choices)
    requires local.id == cloud.id && forall id :: InsideSection(id, local, cloud) ==> id in choices
    ensures SectionDecided(choices, local, cloud, MergedSection(local, cloud, choices))
  {
    hide BulletsOf, Arranged, MergedItems, PresenceDecided, OrderDecided, ItemDecided, BulletOrder;
    var s := local.id;
    BulletsDecided(local, cloud, choices);
    forall b | b in MergedSection(local, cloud, choices).items
      ensures ItemDecided(choices, s, BulletsOf(local), BulletsOf(cloud), b)
    {
      ItemsDecided(local, cloud, choices, b);
    }
    assert InsideSection(SectionTitle(s), local, cloud) ==> SectionTitle(s) in choices;
    assert InsideSection(SectionType(s), local, cloud) ==> SectionType(s) in choices;
  }

  lemma SectionsDecided(local: Snapshot, cloud: Snapshot, choices: Choices)
    requires AllChosen(local, cloud, choices)
    ensures var result := Merged(local, cloud, choices);
            && (forall s :: PresenceDecided(choices, SectionPresence(s), s in SectionsOf(local),
                                            s in SectionsOf(cloud), s in SectionOrder(result)))
            && OrderDecided(choices, SectionsOrder, SectionOrder(local), SectionOrder(cloud), SectionOrder(result))
  {
    hide SectionsOf, Arranged, Reconciled, MergedSection, Ids, SectionDiffers;
    var l, c := SectionsOf(local), SectionsOf(cloud);
    MergedOrder(local, cloud, choices);
    var kept, orders := KeptSections(l, c, choices), SectionOrders(local, cloud, choices);
    var result := Merged(local, cloud, choices);
    forall s ensures PresenceDecided(choices, SectionPresence(s), s in l, s in c, s in SectionOrder(result)) {
      IsKept(result.sections, SectionId, kept.Keys, orders.0, orders.1, s);
      assert Differs(SectionPresence(s), local, cloud) ==> SectionPresence(s) in choices;
    }
    IsKept(result.sections, SectionId, kept.Keys, orders.0, orders.1, "");
    assert Differs(SectionsOrder, local, cloud) ==> SectionsOrder in choices;
  }

  lemma EntriesDecided(local: Snapshot, cloud: Snapshot, choices: Choices, s: Section)
    requires AllChosen(local, cloud, choices) && s in Merged(local, cloud, choices).sections
    ensures EntryDecided(choices, SectionsOf(local), SectionsOf(cloud), s)
  {
    hide SectionsOf, Arranged, MergedSection, SectionDiffers, SectionDecided, Merged;
    var l, c := SectionsOf(local), SectionsOf(cloud);
    MergedOrder(local, cloud, choices);
    if s.id in l && s.id in c {
      SectionEntry(local, s.id);
      SectionEntry(cloud, s.id);
      forall id | InsideSection(id, l[s.id], c[s.id]) ensures id in choices {
        InsideDiffers(id, local, cloud, s.id);
      }
      MergedSectionDecided(l[s.id], c[s.id], choices);
    }
  }

  lemma MergedFollowsChoices(local: Snapshot, cloud: Snapshot, choices: Choices)
    requires AllChosen(local, cloud, choices)
    ensures FollowsChoices(choices, local, cloud, Merged(local, cloud, choices))
  {
    hide SectionsOf, Arranged, SectionDiffers, PresenceDecided, OrderDecided, EntryDecided, SectionOrder, KeptSections;
    SectionsDecided(local, cloud, choices);
    forall s | s in Merged(local, cloud, choices).sections
      ensures EntryDecided(choices, SectionsOf(local), SectionsOf(cloud), s)
    {
      EntriesDecided(local, cloud, choices, s);
    }
    assert Differs(SnapshotTitle, local, cloud) ==> SnapshotTitle in choices;
    assert Differs(SnapshotTarget, local, cloud) ==> SnapshotTarget in choices;
  }

  // ----- the merge, as it runs -----

  /** No conflict about this one bullet is left without a choice. */
  predicate BulletSettled(b: Key, local: Section, cloud: Section, choices: Choices) {
    && (SectionDiffers(BulletPresence(local.id, b), local, cloud) ==> BulletPresence(local.id, b) in choices)
    && (SectionDiffers(BulletText(local.id, b), local, cloud) ==> BulletText(local.id, b) in choices)
    && (SectionDiffers(BulletFactRefs(local.id, b), local, cloud) ==> BulletFactRefs(local.id, b) in choices)
  }

  /** The body of the loop of `mergeSection` over the bullet ids. */
  method RetainBullet(local: Section, cloud: Section, choices: Choices, id: Key)
    returns (r: Result<Option<Bullet>, ConflictId>)
    requires id in BulletsOf(local) || id in BulletsOf(cloud)
    ensures r.Ok? ==> r.value == KeptBullet(local.id, BulletsOf(local), BulletsOf(cloud), choices, id)
    ensures r.Ok? ==> BulletSettled(id, local, cloud, choices)
    ensures r.Err? ==> r.error !in choices && InsideSection(r.error, local, cloud)
  {
    hide BulletsOf;
    var localBullets, cloudBullets := BulletsOf(local), BulletsOf(cloud);
    if id in localBullets && id in cloudBullets {
      BulletEntry(local, id);
      var localBullet, cloudBullet := localBullets[id], cloudBullets[id];
      var choice := Cloud;
      if localBullet.text != cloudBullet.text {
        choice :- Chosen(choices, BulletText(local.id, id));
      } else if localBullet.factRefs != cloudBullet.factRefs {
        choice :- Chosen(choices, BulletFactRefs(local.id, id));
      }
      return Ok(Some(Pick(choice, localBullet, cloudBullet)));
    }
    var choice :- Chosen(choices, BulletPresence(local.id, id));
    var source := Pick(choice, localBullets, cloudBullets);
    return Ok(if id in source then Some(source[id]) else None);
  }

  /** The loop of `mergeSection` that fills `retained`. */
  method RetainBullets(local: Section, cloud: Section, choices: Choices)
    returns (r: Result<map<Key, Bullet>, ConflictId>)
    ensures r.Ok? ==> r.value == KeptBullets(local.id, BulletsOf(local), BulletsOf(cloud), choices)
    ensures r.Ok? ==> forall b :: b in BulletsOf(local).Keys + BulletsOf(cloud).Keys ==>
                        BulletSettled(b, local, cloud, choices)
    ensures r.Err? ==> r.error !in choices && InsideSection(r.error, local, cloud)
  {
    hide BulletsOf, KeptBullet, BulletSettled, InsideSection;
    var localBullets, cloudBullets := BulletsOf(local), BulletsOf(cloud);
    var ids := Distinct(BulletOrder(local) + BulletOrder(cloud));
    ConcatElems(BulletOrder(local), BulletOrder(cloud));
    var retained: map<Key, Bullet> := map[];
    for n := 0 to |ids|
      invariant forall k :: k in retained <==>
                  k in ids[..n] && KeptBullet(local.id, localBullets, cloudBullets, choices, k).Some?
      invariant forall k :: k in retained ==>
                  KeptBullet(local.id, localBullets, cloudBullets, choices, k) == Some(retained[k])
      invariant forall b :: b in ids[..n] ==> BulletSettled(b, local, cloud, choices)
    {
      var id := ids[n];
      assert ids[..n + 1] == ids[..n] + [id];
      assert id in Elems(ids);
      var source :- RetainBullet(local, cloud, choices, id);
      if source.Some? {
        retained := retained[id := source.value];
      }
    }
    assert ids[..|ids|] == ids;
    assert forall k :: k in ids <==> k in Elems(ids);
    return Ok(retained);
  }

  method MergeSection(local: Section, cloud: Section, choices: Choices) returns (r: Result<Section, ConflictId>)
    ensures r.Ok? ==> r.value == MergedSection(local, cloud, choices)
    ensures r.Ok? ==> forall id :: InsideSection(id, local, cloud) ==> id in choices
    ensures r.Err? ==> r.error !in choices && InsideSection(r.error, local, cloud)
  {
    hide KeptBullets, Arranged, BulletsOf;
    var title, kind := cloud.title, cloud.kind;
    if local.title != cloud.title {
      var choice :- Chosen(choices, SectionTitle(local.id));
      title := Pick(choice, local.title, cloud.title);
    }
    if local.kind != cloud.kind {
      var choice :- Chosen(choices, SectionType(local.id));
      kind := Pick(choice, local.kind, cloud.kind);
    }
    var retained :- RetainBullets(local, cloud, choices);
    var localOrder, cloudOrder := BulletOrder(local), BulletOrder(cloud);
    var orderChoice := Cloud;
    if localOrder != cloudOrder {
      orderChoice :- Chosen(choices, BulletsOrder(local.id));
    }
    var items := ReconcileOrder.ReconcileOrder(
      retained, Pick(orderChoice, localOrder, cloudOrder), Pick(orderChoice, cloudOrder, localOrder));
    forall id | InsideSection(id, local, cloud) ensures id in choices {
      if id.BulletPresence? || id.BulletText? || id.BulletFactRefs? {
        assert id.bullet in BulletsOf(local).Keys + BulletsOf(cloud).Keys;
      }
    }
    return Ok(Section(local.id, kind, title, items));
  }

  predicate SectionScoped(id: ConflictId) {
    !id.SnapshotTitle? && !id.SnapshotTarget? && !id.SectionsOrder?
  }

  /** No conflict about the sections with this id is left without a choice. */
  ghost predicate SectionSettled(s: Key, local: Snapshot, cloud: Snapshot, choices: Choices) {
    forall id :: SectionScoped(id) && id.section == s && Differs(id, local, cloud) ==> id in choices
  }

  /** The body of the loop of `mergeResumeSnapshots` over the section ids. */
  method RetainSection(local: Snapshot, cloud: Snapshot, choices: Choices, id: Key)
    returns (r: Result<Option<Section>, ConflictId>)
    requires id in SectionsOf(local) || id in SectionsOf(cloud)
    ensures r.Ok? ==> r.value == KeptSection(SectionsOf(local), SectionsOf(cloud), choices, id)
    ensures r.Ok? ==> SectionSettled(id, local, cloud, choices)
    ensures r.Err? ==> r.error !in choices && Differs(r.error, local, cloud)
  {
    hide SectionsOf, MergedSection;
    var localSections, cloudSections := SectionsOf(local), SectionsOf(cloud);
    if id in localSections && id in cloudSections {
      SectionEntry(local, id);
      var source :- MergeSection(localSections[id], cloudSections[id], choices);
      forall c | SectionScoped(c) && c.section == id && Differs(c, local, cloud) ensures c in choices {
        assert InsideSection(c, localSections[id], cloudSections[id]);
      }
      return Ok(Some(source));
    }
    var choice :- Chosen(choices, SectionPresence(id));
    var source := Pick(choice, localSections, cloudSections);
    return Ok(if id in source then Some(source[id]) else None);
  }

  /** The loop of `mergeResumeSnapshots` that fills `retained`. */
  method RetainSections(local: Snapshot, cloud: Snapshot, choices: Choices)
    returns (r: Result<map<Key, Section>, ConflictId>)
    ensures r.Ok? ==> r.value == KeptSections(SectionsOf(local), SectionsOf(cloud), choices)
    ensures r.Ok? ==> forall s :: s in SectionsOf(local).Keys + SectionsOf(cloud).Keys ==>
                        SectionSettled(s, local, cloud, choices)
    ensures r.Err? ==> r.error !in choices && Differs(r.error, local, cloud)
  {
    hide SectionsOf, KeptSection, SectionSettled, Differs, Distinct, SectionOrder;
    var localSections, cloudSections := SectionsOf(local), SectionsOf(cloud);
    var ids := Distinct(SectionOrder(local) + SectionOrder(cloud));
    ConcatElems(SectionOrder(local), SectionOrder(cloud));
    var retained: map<Key, Section> := map[];
    for n := 0 to |ids|
      invariant forall k :: k in retained <==>
                  k in ids[..n] && KeptSection(localSections, cloudSections, choices, k).Some?
      invariant forall k :: k in retained ==> KeptSection(localSections, cloudSections, choices, k) == Some(retained[k])
      invariant forall s :: s in ids[..n] ==> SectionSettled(s, local, cloud, choices)
    {
      var id := ids[n];
      assert ids[..n + 1] == ids[..n] + [id];
      assert id in Elems(ids);
      var source :- RetainSection(local, cloud, choices, id);
      if source.Some? {
        retained := retained[id := source.value];
      }
    }
    assert ids[..|ids|] == ids;
    assert forall k :: k in ids <==> k in Elems(ids);
    return Ok(retained);
  }

  /** `mergeResumeSnapshots` after its opening check, with every `chosen` call still able to throw. */
  method MergeUnchecked(local: Snapshot, cloud: Snapshot, choices: Choices) returns (r: Result<Snapshot, ConflictId>)
    ensures r.Ok? ==> r.value == Merged(local, cloud, choices)
    ensures r.Ok? ==> AllChosen(local, cloud, choices)
    ensures r.Err? ==> r.error !in choices && Differs(r.error, local, cloud)
  {
    hide KeptSections, Arranged, SectionsOf, SectionDiffers;
    var title, target := cloud.title, cloud.target;
    if local.title != cloud.title {
      var choice :- Chosen(choices, SnapshotTitle);
      title := Pick(choice, local.title, cloud.title);
    }
    if local.target != cloud.target {
      var choice :- Chosen(choices, SnapshotTarget);
      target := Pick(choice, local.target, cloud.target);
    }
    var retained :- RetainSections(local, cloud, choices);
    var localOrder, cloudOrder := SectionOrder(local), SectionOrder(cloud);
    var orderChoice := Cloud;
    if localOrder != cloudOrder {
      orderChoice :- Chosen(choices, SectionsOrder);
    }
    var sections := ReconcileOrder.ReconcileOrder(
      retained, Pick(orderChoice, localOrder, cloudOrder), Pick(orderChoice, cloudOrder, localOrder));
    forall id | Differs(id, local, cloud) ensures id in choices {
      if SectionScoped(id) {
        assert id.section in SectionsOf(local).Keys + SectionsOf(cloud).Keys;
      }
    }
    return Ok(Snapshot(title, target, sections));
  }

  ghost predicate FirstMissing(conflicts: seq<ConflictId>, choices: Choices, id: ConflictId) {
    exists n :: 0 <= n < |conflicts| && conflicts[n] == id && id !in choices
                && forall i :: 0 <= i < n ==> conflicts[i] in choices
  }

  /** The merge: the first listed conflict without a choice is reported, otherwise the choices decide. */
  method MergeResumeSnapshots(local: Snapshot, cloud: Snapshot, choices: Choices)
    returns (r: Result<Snapshot, ConflictId>)
    ensures r.Ok? <==> forall id :: id in Conflicts(local, cloud) ==> id in choices
    ensures r.Ok? ==> r.value == Merged(local, cloud, choices)
    ensures r.Ok? ==> FollowsChoices(choices, local, cloud, r.value)
    ensures r.Err? ==> FirstMissing(Conflicts(local, cloud), choices, r.error)
  {
    var conflicts := ResumeSnapshotConflicts(local, cloud);
    for n := 0 to |conflicts|
      invariant forall i :: 0 <= i < n ==> conflicts[i] in choices
    {
      var _ :- Chosen(choices, conflicts[n]);
    }
    r := MergeUnchecked(local, cloud, choices);
    if r.Err? {
      DifferenceIsListed(r.error, local, cloud);
    } else {
      MergedFollowsChoices(local, cloud, choices);
    }
  }
}
