/** What the conflict list and the merge promise, over all pairs of snapshots and all choices. */
module MergeTheorems {
  import opened Sequences
  import opened Wrappers
  import opened ReconcileOrder
  import opened SnapshotMerge

  // ----- the conflict list is complete and exact -----

  /** Each entry replaced by the last one under its id. */
  function Latest<T>(items: seq<T>, key: T -> Key): (r: seq<T>)
    ensures |r| == |items|
  {
    seq(|items|, i requires 0 <= i < |items| =>
      assert key(items[i]) in ById(items, key) by { IdOf(items, key, i); }
      ById(items, key)[key(items[i])])
  }

  lemma IdOf<T>(items: seq<T>, key: T -> Key, i: nat)
    requires i < |items|
    ensures key(items[i]) in ById(items, key)
  {
    assert Ids(items, key)[i] == key(items[i]);
  }

  lemma SectionOrderAt(s: Snapshot, i: nat)
    requires i < |s.sections|
    ensures SectionOrder(s)[i] == s.sections[i].id && s.sections[i].id in SectionsOf(s)
  {
    IdOf(s.sections, SectionId, i);
    assert SectionOrder(s)[i] == SectionId(s.sections[i]);
  }

  lemma BulletOrderAt(s: Section, i: nat)
    requires i < |s.items|
    ensures BulletOrder(s)[i] == s.items[i].id && s.items[i].id in BulletsOf(s)
  {
    IdOf(s.items, BulletId, i);
    assert BulletOrder(s)[i] == BulletId(s.items[i]);
  }

  function LatestBullets(s: Section): Section {
    s.(items := Latest(s.items, BulletId))
  }

  /** The snapshot as the maps over its ids show it: every section and bullet is the last one under its id. */
  function LastOfEachId(s: Snapshot): Snapshot {
    var latest := Latest(s.sections, SectionId);
    s.(sections := seq(|latest|, i requires 0 <= i < |latest| => LatestBullets(latest[i])))
  }

  /** Replacing entries by the last under their ids leaves the ids. */
  lemma LatestKeepsIds<T>(items: seq<T>, key: T -> Key)
    ensures Ids(Latest(items, key), key) == Ids(items, key)
  {
    forall i | 0 <= i < |items| ensures key(Latest(items, key)[i]) == key(items[i]) {
      IdOf(items, key, i);
      ByIdEntry(items, key, key(items[i]));
    }
  }

  /** Where ids do not repeat nothing is replaced. */
  lemma LatestOfUnique<T>(items: seq<T>, key: T -> Key)
    requires NoDup(Ids(items, key))
    ensures Latest(items, key) == items
  {
    forall i | 0 <= i < |items| ensures Latest(items, key)[i] == items[i] {
      ByIdUnique(items, key, i);
    }
  }

  lemma LastOfUnique(s: Snapshot)
    requires UniqueIds(s)
    ensures LastOfEachId(s) == s
  {
    hide Latest;
    LatestOfUnique(s.sections, SectionId);
    forall i | 0 <= i < |s.sections| ensures LatestBullets(s.sections[i]) == s.sections[i] {
      LatestOfUnique(s.sections[i].items, BulletId);
    }
  }

  lemma {:induction false} ProjectOntoNothing(s: seq<Key>)
    ensures Project(s, {}) == []
  {
    if s != [] {
      ProjectOntoNothing(s[1..]);
    }
  }

  lemma NothingOnlyOneSide(ids: seq<Key>)
    ensures Project(AllIds(ids, ids), OnlyOneSide(ids, ids)) == []
  {
    assert OnlyOneSide(ids, ids) == {};
    ProjectOntoNothing(AllIds(ids, ids));
  }

  /** The content of no bullet is listed when each one met in the map is the same. */
  lemma {:induction false} NoBulletConflicts(section: Key, items: seq<Bullet>, cloud: map<Key, Bullet>)
    requires forall i :: 0 <= i < |items| && items[i].id in cloud ==> cloud[items[i].id] == items[i]
    ensures BulletConflicts(section, items, cloud) == []
  {
    if items != [] {
      NoBulletConflicts(section, items[..|items| - 1], cloud);
    }
  }

  lemma BulletsWithoutConflict(local: Section, cloud: Section)
    requires BulletOrder(local) == BulletOrder(cloud)
    ensures BulletConflicts(local.id, local.items, BulletsOf(cloud)) == []
            <==> local.items == LatestBullets(cloud).items
  {
    hide ById, BulletConflicts;
    var c := BulletsOf(cloud);
    assert |BulletOrder(local)| == |BulletOrder(cloud)|;
    forall i | 0 <= i < |local.items|
      ensures local.items[i].id in c && LatestBullets(cloud).items[i] == c[local.items[i].id]
    {
      BulletOrderAt(local, i);
      BulletOrderAt(cloud, i);
    }
    if BulletConflicts(local.id, local.items, c) == [] {
      forall i | 0 <= i < |local.items| ensures local.items[i] == c[local.items[i].id] {
        BulletEntry(cloud, local.items[i].id);
        BulletConflictListed(local.id, local.items, c, i);
      }
    }
    if local.items == LatestBullets(cloud).items {
      NoBulletConflicts(local.id, local.items, c);
    }
  }

  /** A section has no conflict exactly when it shows what the map over the other one's bullets shows. */
  lemma NoSectionConflicts(local: Section, cloud: Section)
    requires local.id == cloud.id
    ensures SectionConflicts(local, cloud) == [] <==> local == LatestBullets(cloud)
  {
    hide BulletOrder, BulletsOf, Project, AllIds, OnlyOneSide, BulletConflicts, Latest;
    if local == LatestBullets(cloud) {
      LatestKeepsIds(cloud.items, BulletId);
      LatestBulletOrder(cloud);
    }
    if BulletOrder(local) == BulletOrder(cloud) {
      BulletsWithoutConflict(local, cloud);
      NothingOnlyOneSide(BulletOrder(local));
      PresencesOfNone(local.id);
    }
  }

  lemma LatestBulletOrder(s: Section)
    ensures BulletOrder(LatestBullets(s)) == BulletOrder(s)
  {
    LatestKeepsIds(s.items, BulletId);
  }

  lemma PresencesOfNone(section: Key)
    ensures BulletPresences(section, []) == [] && SectionPresences([]) == []
  {
  }

  lemma BulletConflictListed(section: Key, items: seq<Bullet>, cloud: map<Key, Bullet>, i: nat)
    requires BulletConflicts(section, items, cloud) == [] && i < |items|
    ensures BulletConflict(section, items[i], cloud) == []
  {
    hide BulletConflicts;
    if BulletConflict(section, items[i], cloud) != [] {
      InBulletConflicts(section, items, cloud, BulletConflict(section, items[i], cloud)[0]);
    }
  }

  lemma {:induction false} NoSharedConflicts(sections: seq<Section>, cloud: map<Key, Section>)
    ensures SharedSectionConflicts(sections, cloud) == []
       <==> forall i :: 0 <= i < |sections| && sections[i].id in cloud ==>
                          SectionConflicts(sections[i], cloud[sections[i].id]) == []
  {
    hide SectionConflicts;
    if sections != [] {
      var last := |sections| - 1;
      NoSharedConflicts(sections[..last], cloud);
      assert forall i :: 0 <= i < last ==> sections[..last][i] == sections[i];
    }
  }

  /**
   * Which pairs of snapshots have no conflict, for any ids: exactly those where the local one is what the cloud
   * one's maps show.
   */
  lemma NoConflictsExactly(local: Snapshot, cloud: Snapshot)
    ensures Conflicts(local, cloud) == [] <==> local == LastOfEachId(cloud)
  {
    hide SectionOrder, SectionsOf, Project, AllIds, OnlyOneSide, SharedSectionConflicts, LastOfEachId;
    if local == LastOfEachId(cloud) {
      LastKeepsOrder(cloud);
    }
    SameAsLast(local, cloud);
    if SectionOrder(local) == SectionOrder(cloud) {
      SectionsWithoutConflict(local, cloud);
      NothingOnlyOneSide(SectionOrder(local));
      PresencesOfNone("");
    }
  }

  lemma SameAsLast(local: Snapshot, cloud: Snapshot)
    ensures local == LastOfEachId(cloud)
       <==> local.title == cloud.title && local.target == cloud.target && local.sections == LastOfEachId(cloud).sections
  {
  }

  lemma SectionsWithoutConflict(local: Snapshot, cloud: Snapshot)
    requires SectionOrder(local) == SectionOrder(cloud)
    ensures SharedSectionConflicts(local.sections, SectionsOf(cloud)) == []
       <==> local.sections == LastOfEachId(cloud).sections
  {
    hide ById, SharedSectionConflicts, SectionConflicts, LatestBullets;
    var c, last := SectionsOf(cloud), LastOfEachId(cloud);
    assert |SectionOrder(local)| == |SectionOrder(cloud)|;
    NoSharedConflicts(local.sections, c);
    forall i | 0 <= i < |local.sections|
      ensures local.sections[i].id in c
      ensures SectionConflicts(local.sections[i], c[local.sections[i].id]) == []
              <==> local.sections[i] == last.sections[i]
    {
      SectionOrderAt(local, i);
      SectionOrderAt(cloud, i);
      SectionEntry(cloud, local.sections[i].id);
      NoSectionConflicts(local.sections[i], c[local.sections[i].id]);
    }
  }

  lemma LastKeepsOrder(s: Snapshot)
    ensures SectionOrder(LastOfEachId(s)) == SectionOrder(s)
  {
    hide ById;
    forall i | 0 <= i < |s.sections| ensures SectionOrder(LastOfEachId(s))[i] == SectionOrder(s)[i] {
      SectionOrderAt(s, i);
      SectionOrderAt(LastOfEachId(s), i);
      SectionEntry(s, s.sections[i].id);
    }
  }

  /** A snapshot has no conflict with itself exactly when no entry hides another one under its id. */
  lemma NoConflictWithItself(s: Snapshot)
    ensures Conflicts(s, s) == [] <==> s == LastOfEachId(s)
  {
    NoConflictsExactly(s, s);
  }

  /** Where the cloud's ids do not repeat, no conflict is listed exactly when the two snapshots are the same. */
  lemma NoConflictsIffEqual(local: Snapshot, cloud: Snapshot)
    requires UniqueIds(cloud)
    ensures Conflicts(local, cloud) == [] <==> local == cloud
  {
    NoConflictsExactly(local, cloud);
    LastOfUnique(cloud);
  }

  /** The listed ids are the differences, and the merge succeeds exactly when each has a choice. */
  lemma ListedAreTheDifferences(local: Snapshot, cloud: Snapshot)
    requires UniqueIds(local)
    ensures forall id :: id in Conflicts(local, cloud) <==> Differs(id, local, cloud)
  {
    forall id ensures id in Conflicts(local, cloud) <==> Differs(id, local, cloud) {
      if id in Conflicts(local, cloud) { ListedIsDifference(id, local, cloud); }
      if Differs(id, local, cloud) { DifferenceIsListed(id, local, cloud); }
    }
  }

  // ----- only the choices for listed conflicts matter -----

  ghost predicate SameSides(a: Choices, b: Choices, local: Snapshot, cloud: Snapshot) {
    forall id :: id in Conflicts(local, cloud) ==> Side(a, id) == Side(b, id)
  }

  lemma BulletDepends(local: Section, cloud: Section, a: Choices, b: Choices, k: Key)
    requires local.id == cloud.id && k in BulletsOf(local).Keys + BulletsOf(cloud).Keys
    requires forall id :: InsideSection(id, local, cloud) ==> Side(a, id) == Side(b, id)
    ensures KeptBullet(local.id, BulletsOf(local), BulletsOf(cloud), a, k)
         == KeptBullet(local.id, BulletsOf(local), BulletsOf(cloud), b, k)
  {
    hide BulletsOf, Side;
    var s := local.id;
    if k in BulletsOf(local) { BulletEntry(local, k); }
    assert InsideSection(BulletPresence(s, k), local, cloud) ==>
             Side(a, BulletPresence(s, k)) == Side(b, BulletPresence(s, k));
    assert InsideSection(BulletText(s, k), local, cloud) ==> Side(a, BulletText(s, k)) == Side(b, BulletText(s, k));
    assert InsideSection(BulletFactRefs(s, k), local, cloud) ==>
             Side(a, BulletFactRefs(s, k)) == Side(b, BulletFactRefs(s, k));
  }

  lemma SectionDepends(local: Section, cloud: Section, a: Choices, b: Choices)
    requires local.id == cloud.id
    requires forall id :: InsideSection(id, local, cloud) ==> Side(a, id) == Side(b, id)
    ensures MergedSection(local, cloud, a) == MergedSection(local, cloud, b)
  {
    hide BulletsOf, BulletOrder, Arranged, Side, KeptBullet;
    var s, l, c := local.id, BulletsOf(local), BulletsOf(cloud);
    forall k | k in l.Keys + c.Keys ensures KeptBullet(s, l, c, a, k) == KeptBullet(s, l, c, b, k) {
      BulletDepends(local, cloud, a, b, k);
    }
    assert KeptBullets(s, l, c, a) == KeptBullets(s, l, c, b);
    assert InsideSection(SectionTitle(s), local, cloud) ==> Side(a, SectionTitle(s)) == Side(b, SectionTitle(s));
    assert InsideSection(SectionType(s), local, cloud) ==> Side(a, SectionType(s)) == Side(b, SectionType(s));
    assert InsideSection(BulletsOrder(s), local, cloud) ==> Side(a, BulletsOrder(s)) == Side(b, BulletsOrder(s));
  }

  lemma KeptSectionDepends(local: Snapshot, cloud: Snapshot, a: Choices, b: Choices, k: Key)
    requires k in SectionsOf(local).Keys + SectionsOf(cloud).Keys
    requires forall id :: Differs(id, local, cloud) ==> Side(a, id) == Side(b, id)
    ensures KeptSection(SectionsOf(local), SectionsOf(cloud), a, k)
            == KeptSection(SectionsOf(local), SectionsOf(cloud), b, k)
  {
    hide SectionsOf, Side, MergedSection, SectionDiffers;
    var l, c := SectionsOf(local), SectionsOf(cloud);
    if k in l && k in c {
      SectionEntry(local, k);
      SectionEntry(cloud, k);
      forall id | InsideSection(id, l[k], c[k]) ensures Side(a, id) == Side(b, id) {
        InsideDiffers(id, local, cloud, k);
      }
      SectionDepends(l[k], c[k], a, b);
    } else {
      assert Differs(SectionPresence(k), local, cloud);
    }
  }

  /** Choices for ids that are not listed never reach the result. */
  lemma DependsOnListedOnly(local: Snapshot, cloud: Snapshot, a: Choices, b: Choices)
    requires SameSides(a, b, local, cloud)
    ensures Merged(local, cloud, a) == Merged(local, cloud, b)
  {
    hide SectionsOf, SectionOrder, Arranged, Side, Conflicts, KeptSection;
    var l, c := SectionsOf(local), SectionsOf(cloud);
    forall id | Differs(id, local, cloud) ensures Side(a, id) == Side(b, id) {
      DifferenceIsListed(id, local, cloud);
    }
    forall k | k in l.Keys + c.Keys ensures KeptSection(l, c, a, k) == KeptSection(l, c, b, k) {
      KeptSectionDepends(local, cloud, a, b, k);
    }
    assert KeptSections(l, c, a) == KeptSections(l, c, b);
    assert Differs(SnapshotTitle, local, cloud) ==> Side(a, SnapshotTitle) == Side(b, SnapshotTitle);
    assert Differs(SnapshotTarget, local, cloud) ==> Side(a, SnapshotTarget) == Side(b, SnapshotTarget);
    assert Differs(SectionsOrder, local, cloud) ==> Side(a, SectionsOrder) == Side(b, SectionsOrder);
  }

  // ----- one choice moves one place -----

  /** The id names a place inside the section with this id, or the section's presence. */
  predicate About(id: ConflictId, section: Key) {
    SectionScoped(id) && id.section == section
  }

  lemma OtherSection(local: Snapshot, cloud: Snapshot, choices: Choices, id: ConflictId, side: Choice, k: Key)
    requires k in SectionsOf(local).Keys + SectionsOf(cloud).Keys && !About(id, k)
    ensures KeptSection(SectionsOf(local), SectionsOf(cloud), choices[id := side], k)
         == KeptSection(SectionsOf(local), SectionsOf(cloud), choices, k)
  {
    hide SectionsOf, MergedSection, SectionDiffers;
    var l, c := SectionsOf(local), SectionsOf(cloud);
    if k in l && k in c {
      SectionEntry(local, k);
      SectionEntry(cloud, k);
      forall d | InsideSection(d, l[k], c[k]) ensures Side(choices[id := side], d) == Side(choices, d) {
        InsideDiffers(d, local, cloud, k);
        InsideIsScoped(d, l[k], c[k]);
      }
      SectionDepends(l[k], c[k], choices[id := side], choices);
    }
  }

  lemma InsideIsScoped(id: ConflictId, local: Section, cloud: Section)
    requires InsideSection(id, local, cloud)
    ensures SectionScoped(id) && !id.SectionPresence?
  {
    hide BulletsOf;
  }

  lemma InMerged(local: Snapshot, cloud: Snapshot, choices: Choices, s: Section)
    ensures var kept := KeptSections(SectionsOf(local), SectionsOf(cloud), choices);
            s in Merged(local, cloud, choices).sections <==> s.id in kept && kept[s.id] == s
  {
    hide SectionsOf, Arranged, Reconciled, MergedSection, Ids;
    var kept := KeptSections(SectionsOf(local), SectionsOf(cloud), choices);
    var orders := SectionOrders(local, cloud, choices);
    var merged := Merged(local, cloud, choices);
    MergedOrder(local, cloud, choices);
    IsKept(merged.sections, SectionId, kept.Keys, orders.0, orders.1, s.id);
    if s.id in kept {
      var i :| 0 <= i < |SectionOrder(merged)| && SectionOrder(merged)[i] == s.id;
      SectionOrderAt(merged, i);
    }
  }

  /** Deciding one id anew changes the snapshot at most in the place that the id names. */
  lemma OnlyItsPlace(local: Snapshot, cloud: Snapshot, choices: Choices, id: ConflictId, side: Choice)
    ensures var before, after := Merged(local, cloud, choices), Merged(local, cloud, choices[id := side]);
            && (id != SnapshotTitle ==> after.title == before.title)
            && (id != SnapshotTarget ==> after.target == before.target)
            && (!id.SectionsOrder? && !id.SectionPresence? ==> SectionOrder(after) == SectionOrder(before))
            && forall s: Section :: !About(id, s.id) ==> (s in after.sections <==> s in before.sections)
  {
    hide SectionsOf, Merged, KeptSection, SectionOrder, Arranged, Reconciled;
    var a, b := choices[id := side], choices;
    var l, c := SectionsOf(local), SectionsOf(cloud);
    var before, after := Merged(local, cloud, b), Merged(local, cloud, a);
    forall s: Section | !About(id, s.id) ensures s in after.sections <==> s in before.sections {
      InMerged(local, cloud, a, s);
      InMerged(local, cloud, b, s);
      if s.id in l.Keys + c.Keys {
        OtherSection(local, cloud, choices, id, side, s.id);
      }
    }
    TitleAndTarget(local, cloud, choices, id, side);
    if !id.SectionsOrder? && !id.SectionPresence? {
      forall k | k in l.Keys + c.Keys ensures KeptSection(l, c, a, k).Some? <==> KeptSection(l, c, b, k).Some? {
        PresenceOnly(l, c, choices, id, side, k);
      }
      assert KeptSections(l, c, a).Keys == KeptSections(l, c, b).Keys;
      MergedOrder(local, cloud, a);
      MergedOrder(local, cloud, b);
    }
  }

  lemma TitleAndTarget(local: Snapshot, cloud: Snapshot, choices: Choices, id: ConflictId, side: Choice)
    ensures var before, after := Merged(local, cloud, choices), Merged(local, cloud, choices[id := side]);
            && (id != SnapshotTitle ==> after.title == before.title)
            && (id != SnapshotTarget ==> after.target == before.target)
  {
    hide SectionsOf, KeptSection, SectionOrder, Arranged;
  }

  lemma PresenceOnly(l: map<Key, Section>, c: map<Key, Section>, choices: Choices, id: ConflictId, side: Choice, k: Key)
    requires !id.SectionPresence?
    ensures KeptSection(l, c, choices[id := side], k).Some? <==> KeptSection(l, c, choices, k).Some?
  {
    hide MergedSection;
  }

  /** The same inside a shared section. */
  lemma OnlyItsPlaceInSection(local: Section, cloud: Section, choices: Choices, id: ConflictId, side: Choice)
    requires local.id == cloud.id
    ensures var s := local.id;
            var before, after := MergedSection(local, cloud, choices), MergedSection(local, cloud, choices[id := side]);
            && (id != SectionTitle(s) ==> after.title == before.title)
            && (id != SectionType(s) ==> after.kind == before.kind)
            && (id != BulletsOrder(s) && !(id.BulletPresence? && id.section == s) ==>
                  BulletOrder(after) == BulletOrder(before))
            && forall b: Bullet :: !(AboutBullet(id) && id.section == s && id.bullet == b.id) ==>
                                     (b in after.items <==> b in before.items)
  {
    hide BulletsOf, MergedItems, KeptBullet, BulletOrder, Arranged, Reconciled;
    var a, b := choices[id := side], choices;
    var s, l, c := local.id, BulletsOf(local), BulletsOf(cloud);
    forall x: Bullet | !(AboutBullet(id) && id.section == s && id.bullet == x.id)
      ensures x in MergedSection(local, cloud, a).items <==> x in MergedSection(local, cloud, b).items
    {
      InMergedSection(local, cloud, a, x);
      InMergedSection(local, cloud, b, x);
      if x.id in l.Keys + c.Keys {
        OtherBullet(local, cloud, choices, id, side, x.id);
      }
    }
    if id != BulletsOrder(s) && !(id.BulletPresence? && id.section == s) {
      forall k | k in l.Keys + c.Keys ensures KeptBullet(s, l, c, a, k).Some? <==> KeptBullet(s, l, c, b, k).Some? {
        BulletPresenceOnly(s, l, c, choices, id, side, k);
      }
      assert KeptBullets(s, l, c, a).Keys == KeptBullets(s, l, c, b).Keys;
      MergedItemOrder(local, cloud, a);
      MergedItemOrder(local, cloud, b);
    }
  }

  predicate AboutBullet(id: ConflictId) {
    id.BulletPresence? || id.BulletText? || id.BulletFactRefs?
  }

  lemma OtherBullet(local: Section, cloud: Section, choices: Choices, id: ConflictId, side: Choice, k: Key)
    requires local.id == cloud.id && k in BulletsOf(local).Keys + BulletsOf(cloud).Keys
    requires !(AboutBullet(id) && id.section == local.id && id.bullet == k)
    ensures KeptBullet(local.id, BulletsOf(local), BulletsOf(cloud), choices[id := side], k)
         == KeptBullet(local.id, BulletsOf(local), BulletsOf(cloud), choices, k)
  {
    hide BulletsOf;
    if k in BulletsOf(local) { BulletEntry(local, k); }
  }

  lemma BulletPresenceOnly(s: Key, l: map<Key, Bullet>, c: map<Key, Bullet>, choices: Choices, id: ConflictId,
                           side: Choice, k: Key)
    requires !(id.BulletPresence? && id.section == s)
    ensures KeptBullet(s, l, c, choices[id := side], k).Some? <==> KeptBullet(s, l, c, choices, k).Some?
  {
    hide MergedBullet;
  }

  lemma InMergedSection(local: Section, cloud: Section, choices: Choices, b: Bullet)
    requires local.id == cloud.id
    ensures var kept := KeptBullets(local.id, BulletsOf(local), BulletsOf(cloud), choices);
            b in MergedSection(local, cloud, choices).items <==> b.id in kept && kept[b.id] == b
  {
    hide BulletsOf, Arranged, Reconciled, KeptBullet, Ids;
    var kept := KeptBullets(local.id, BulletsOf(local), BulletsOf(cloud), choices);
    var orders, merged := BulletOrders(local, cloud, choices), MergedSection(local, cloud, choices);
    forall k | k in kept ensures BulletId(kept[k]) == k {
      KeptBulletSource(local, cloud, choices, k);
    }
    ArrangedOrder(kept, BulletId, orders.0, orders.1);
    IsKept(merged.items, BulletId, kept.Keys, orders.0, orders.1, b.id);
    if b.id in kept {
      var order := BulletOrder(merged);
      assert |order| == |merged.items|;
      var i :| 0 <= i < |order| && order[i] == b.id;
      BulletOrderAt(merged, i);
      assert merged.items[i] in merged.items && BulletId(merged.items[i]) == b.id;
    }
  }

  // ----- the two sides are interchangeable -----

  function Flip(choice: Choice): Choice {
    if choice == Local then Cloud else Local
  }

  function Flipped(choices: Choices): Choices {
    map id | id in choices :: Flip(choices[id])
  }

  lemma BulletSymmetric(local: Section, cloud: Section, choices: Choices, k: Key)
    requires local.id == cloud.id && k in BulletsOf(local).Keys + BulletsOf(cloud).Keys
    requires BulletSettled(k, local, cloud, choices)
    ensures KeptBullet(local.id, BulletsOf(local), BulletsOf(cloud), choices, k)
         == KeptBullet(local.id, BulletsOf(cloud), BulletsOf(local), Flipped(choices), k)
  {
    hide BulletsOf;
    if k in BulletsOf(local) { BulletEntry(local, k); }
    if k in BulletsOf(cloud) { BulletEntry(cloud, k); }
  }

  lemma SectionSymmetric(local: Section, cloud: Section, choices: Choices)
    requires local.id == cloud.id
    requires forall id :: InsideSection(id, local, cloud) ==> id in choices
    ensures MergedSection(local, cloud, choices) == MergedSection(cloud, local, Flipped(choices))
  {
    hide BulletsOf, BulletOrder, Arranged, KeptBullet;
    var s, l, c := local.id, BulletsOf(local), BulletsOf(cloud);
    forall k | k in l.Keys + c.Keys
      ensures KeptBullet(s, l, c, choices, k) == KeptBullet(s, c, l, Flipped(choices), k)
    {
      assert InsideSection(BulletPresence(s, k), local, cloud) ==> BulletPresence(s, k) in choices;
      assert InsideSection(BulletText(s, k), local, cloud) ==> BulletText(s, k) in choices;
      assert InsideSection(BulletFactRefs(s, k), local, cloud) ==> BulletFactRefs(s, k) in choices;
      BulletSymmetric(local, cloud, choices, k);
    }
    assert KeptBullets(s, l, c, choices) == KeptBullets(s, c, l, Flipped(choices));
    assert InsideSection(SectionTitle(s), local, cloud) ==> SectionTitle(s) in choices;
    assert InsideSection(SectionType(s), local, cloud) ==> SectionType(s) in choices;
    assert InsideSection(BulletsOrder(s), local, cloud) ==> BulletsOrder(s) in choices;
  }

  lemma KeptSectionSymmetric(local: Snapshot, cloud: Snapshot, choices: Choices, k: Key)
    requires AllChosen(local, cloud, choices) && k in SectionsOf(local).Keys + SectionsOf(cloud).Keys
    ensures KeptSection(SectionsOf(local), SectionsOf(cloud), choices, k)
         == KeptSection(SectionsOf(cloud), SectionsOf(local), Flipped(choices), k)
  {
    hide SectionsOf, MergedSection, SectionDiffers;
    var l, c := SectionsOf(local), SectionsOf(cloud);
    if k in l && k in c {
      SectionEntry(local, k);
      SectionEntry(cloud, k);
      forall id | InsideSection(id, l[k], c[k]) ensures id in choices {
        InsideDiffers(id, local, cloud, k);
      }
      SectionSymmetric(l[k], c[k], choices);
    } else {
      assert Differs(SectionPresence(k), local, cloud);
    }
  }

  /** Exchanging the snapshots and turning every choice round changes nothing. */
  lemma MergeSymmetric(local: Snapshot, cloud: Snapshot, choices: Choices)
    requires AllChosen(local, cloud, choices)
    ensures Merged(local, cloud, choices) == Merged(cloud, local, Flipped(choices))
  {
    hide SectionsOf, SectionOrder, Arranged, KeptSection, SectionDiffers;
    var l, c := SectionsOf(local), SectionsOf(cloud);
    forall k | k in l.Keys + c.Keys
      ensures KeptSection(l, c, choices, k) == KeptSection(c, l, Flipped(choices), k)
    {
      KeptSectionSymmetric(local, cloud, choices, k);
    }
    assert KeptSections(l, c, choices) == KeptSections(c, l, Flipped(choices));
    assert Differs(SnapshotTitle, local, cloud) ==> SnapshotTitle in choices;
    assert Differs(SnapshotTarget, local, cloud) ==> SnapshotTarget in choices;
    assert Differs(SectionsOrder, local, cloud) ==> SectionsOrder in choices;
  }

  // ----- choosing one side everywhere gives that side back -----

  lemma {:induction false} NothingToSplice(kept: set<Key>, preferred: seq<Key>, secondary: seq<Key>, n: nat)
    requires n <= |secondary| && kept == Elems(preferred)
    ensures Ordered(kept, preferred, secondary, n) == preferred
  {
    hide Place;
    if n == 0 {
      ProjectAll(preferred, kept);
    } else {
      NothingToSplice(kept, preferred, secondary, n - 1);
      assert secondary[n - 1] in preferred <==> secondary[n - 1] in Elems(preferred);
    }
  }

  /** Entries listed in an order that covers them come in that order. */
  lemma ArrangedInOrder<T>(retained: map<Key, T>, order: seq<Key>, secondary: seq<Key>)
    requires retained.Keys == Elems(order)
    ensures |Arranged(retained, order, secondary)| == |order|
    ensures forall i :: 0 <= i < |order| ==>
                          order[i] in retained && Arranged(retained, order, secondary)[i] == retained[order[i]]
  {
    NothingToSplice(Elems(order), order, secondary, |secondary|);
  }

  lemma KeptBulletAllCloud(local: Section, cloud: Section, choices: Choices, k: Key)
    requires local.id == cloud.id && k in BulletsOf(local).Keys + BulletsOf(cloud).Keys
    requires forall id :: InsideSection(id, local, cloud) ==> Side(choices, id) == Cloud
    ensures KeptBullet(local.id, BulletsOf(local), BulletsOf(cloud), choices, k)
         == if k in BulletsOf(cloud) then Some(BulletsOf(cloud)[k]) else None
  {
    hide BulletsOf, Side;
    var s := local.id;
    if k in BulletsOf(local) { BulletEntry(local, k); }
    assert InsideSection(BulletPresence(s, k), local, cloud) ==> Side(choices, BulletPresence(s, k)) == Cloud;
    assert InsideSection(BulletText(s, k), local, cloud) ==> Side(choices, BulletText(s, k)) == Cloud;
    assert InsideSection(BulletFactRefs(s, k), local, cloud) ==> Side(choices, BulletFactRefs(s, k)) == Cloud;
  }

  lemma ItemsAllCloud(local: Section, cloud: Section, choices: Choices)
    requires local.id == cloud.id
    requires forall id :: InsideSection(id, local, cloud) ==> Side(choices, id) == Cloud
    ensures KeptBullets(local.id, BulletsOf(local), BulletsOf(cloud), choices) == BulletsOf(cloud)
  {
    hide BulletsOf, Side, KeptBullet;
    var s, l, c := local.id, BulletsOf(local), BulletsOf(cloud);
    forall k | k in l.Keys + c.Keys
      ensures KeptBullet(s, l, c, choices, k) == if k in c then Some(c[k]) else None
    {
      KeptBulletAllCloud(local, cloud, choices, k);
    }
  }

  lemma SectionAllCloud(local: Section, cloud: Section, choices: Choices)
    requires local.id == cloud.id
    requires forall id :: InsideSection(id, local, cloud) ==> Side(choices, id) == Cloud
    ensures MergedSection(local, cloud, choices) == LatestBullets(cloud)
  {
    hide ById, Arranged, KeptBullets, Side;
    var s := local.id;
    ItemsAllCloud(local, cloud, choices);
    assert InsideSection(SectionTitle(s), local, cloud) ==> Side(choices, SectionTitle(s)) == Cloud;
    assert InsideSection(SectionType(s), local, cloud) ==> Side(choices, SectionType(s)) == Cloud;
    assert InsideSection(BulletsOrder(s), local, cloud) ==> Side(choices, BulletsOrder(s)) == Cloud;
    ArrangedInOrder(BulletsOf(cloud), BulletOrder(cloud), BulletOrder(local));
  }

  /** The cloud snapshot as a merge can show it: the last entry under each id, inside shared sections too. */
  function AsMerged(local: Snapshot, cloud: Snapshot): Snapshot {
    var latest := Latest(cloud.sections, SectionId);
    cloud.(sections := seq(|latest|, i requires 0 <= i < |latest| =>
             if latest[i].id in SectionOrder(local) then LatestBullets(latest[i]) else latest[i]))
  }

  lemma KeptSectionAllCloud(local: Snapshot, cloud: Snapshot, choices: Choices, k: Key)
    requires k in SectionsOf(local).Keys + SectionsOf(cloud).Keys
    requires forall id :: Differs(id, local, cloud) ==> Side(choices, id) == Cloud
    ensures KeptSection(SectionsOf(local), SectionsOf(cloud), choices, k)
         == if k !in SectionsOf(cloud) then None
            else if k in SectionsOf(local) then Some(LatestBullets(SectionsOf(cloud)[k]))
            else Some(SectionsOf(cloud)[k])
  {
    hide SectionsOf, MergedSection, SectionDiffers, Side, BulletOrder, LatestBullets;
    var l, c := SectionsOf(local), SectionsOf(cloud);
    if k in l && k in c {
      SectionEntry(local, k);
      SectionEntry(cloud, k);
      forall id | InsideSection(id, l[k], c[k]) ensures Side(choices, id) == Cloud {
        InsideDiffers(id, local, cloud, k);
      }
      SectionAllCloud(l[k], c[k], choices);
    } else {
      assert Differs(SectionPresence(k), local, cloud);
    }
  }

  lemma SectionsAllCloud(local: Snapshot, cloud: Snapshot, choices: Choices)
    requires forall id :: Differs(id, local, cloud) ==> Side(choices, id) == Cloud
    ensures var kept := KeptSections(SectionsOf(local), SectionsOf(cloud), choices);
            && kept.Keys == Elems(SectionOrder(cloud))
            && forall i :: 0 <= i < |cloud.sections| ==>
                             SectionOrder(cloud)[i] in kept
                             && kept[SectionOrder(cloud)[i]] == AsMerged(local, cloud).sections[i]
  {
    hide ById, KeptSection, Differs, Side, LatestBullets;
    var l, c := SectionsOf(local), SectionsOf(cloud);
    var kept := KeptSections(l, c, choices);
    forall k | k in l.Keys + c.Keys
      ensures KeptSection(l, c, choices, k)
           == if k !in c then None else if k in l then Some(LatestBullets(c[k])) else Some(c[k])
    {
      KeptSectionAllCloud(local, cloud, choices, k);
    }
    forall i | 0 <= i < |cloud.sections|
      ensures SectionOrder(cloud)[i] in kept && kept[SectionOrder(cloud)[i]] == AsMerged(local, cloud).sections[i]
    {
      var k := SectionOrder(cloud)[i];
      IdOf(cloud.sections, SectionId, i);
      SectionEntry(cloud, k);
      assert k in l <==> k in SectionOrder(local);
    }
  }

  /** Every difference decided for the cloud, for any ids: the cloud snapshot, the last entry for a repeated id. */
  lemma AllCloudExactly(local: Snapshot, cloud: Snapshot, choices: Choices)
    requires forall id :: Differs(id, local, cloud) ==> Side(choices, id) == Cloud
    ensures Merged(local, cloud, choices) == AsMerged(local, cloud)
  {
    hide SectionsOf, Arranged, KeptSections, SectionDiffers, Side, AsMerged;
    SectionsAllCloud(local, cloud, choices);
    assert Differs(SnapshotTitle, local, cloud) ==> Side(choices, SnapshotTitle) == Cloud;
    assert Differs(SnapshotTarget, local, cloud) ==> Side(choices, SnapshotTarget) == Cloud;
    assert Differs(SectionsOrder, local, cloud) ==> Side(choices, SectionsOrder) == Cloud;
    ArrangedInOrder(KeptSections(SectionsOf(local), SectionsOf(cloud), choices), SectionOrder(cloud),
                    SectionOrder(local));
    SameButSections(local, cloud);
  }

  lemma SameButSections(local: Snapshot, cloud: Snapshot)
    ensures AsMerged(local, cloud).(sections := cloud.sections) == cloud
    ensures |AsMerged(local, cloud).sections| == |cloud.sections|
  {
  }

  lemma AsMergedOfUnique(local: Snapshot, cloud: Snapshot)
    requires UniqueIds(cloud)
    ensures AsMerged(local, cloud) == cloud
  {
    hide Latest;
    LatestOfUnique(cloud.sections, SectionId);
    forall i | 0 <= i < |cloud.sections| ensures LatestBullets(cloud.sections[i]) == cloud.sections[i] {
      LatestOfUnique(cloud.sections[i].items, BulletId);
    }
  }

  /** Every listed conflict decided for the cloud gives the cloud snapshot, where its ids do not repeat. */
  lemma AllCloudIsCloud(local: Snapshot, cloud: Snapshot, choices: Choices)
    requires UniqueIds(cloud)
    requires forall id :: id in Conflicts(local, cloud) ==> Side(choices, id) == Cloud
    ensures Merged(local, cloud, choices) == cloud
  {
    hide Conflicts, Differs, Merged, Side;
    forall id | Differs(id, local, cloud) ensures Side(choices, id) == Cloud {
      DifferenceIsListed(id, local, cloud);
    }
    AllCloudExactly(local, cloud, choices);
    AsMergedOfUnique(local, cloud);
  }

  lemma DiffersSymmetric(id: ConflictId, local: Snapshot, cloud: Snapshot)
    ensures Differs(id, local, cloud) <==> Differs(id, cloud, local)
  {
    hide SectionsOf, BulletsOf;
  }

  /** Every listed conflict decided for the local side, for any ids. */
  lemma AllLocalExactly(local: Snapshot, cloud: Snapshot, choices: Choices)
    requires forall id :: id in Conflicts(local, cloud) ==> id in choices && choices[id] == Local
    ensures Merged(local, cloud, choices) == AsMerged(cloud, local)
  {
    hide Conflicts, Differs, Merged;
    forall id | Differs(id, local, cloud) ensures id in choices && choices[id] == Local {
      DifferenceIsListed(id, local, cloud);
    }
    MergeSymmetric(local, cloud, choices);
    forall id | Differs(id, cloud, local) ensures Side(Flipped(choices), id) == Cloud {
      DiffersSymmetric(id, local, cloud);
    }
    AllCloudExactly(cloud, local, Flipped(choices));
  }

  /** Every listed conflict decided for the local side gives the local snapshot, where its ids do not repeat. */
  lemma AllLocalIsLocal(local: Snapshot, cloud: Snapshot, choices: Choices)
    requires UniqueIds(local)
    requires forall id :: id in Conflicts(local, cloud) ==> id in choices && choices[id] == Local
    ensures Merged(local, cloud, choices) == local
  {
    AllLocalExactly(local, cloud, choices);
    AsMergedOfUnique(cloud, local);
  }

  // ----- what is kept, from where, and in which order -----

  ghost predicate HasBullet(s: Snapshot, section: Key, b: Bullet) {
    exists t :: t in s.sections && t.id == section && b in t.items
  }

  lemma MergedItemSource(local: Section, cloud: Section, choices: Choices, b: Bullet)
    requires local.id == cloud.id && b in MergedSection(local, cloud, choices).items
    ensures b in local.items || b in cloud.items
  {
    hide BulletsOf, Arranged, KeptBullet;
    var kept := KeptBullets(local.id, BulletsOf(local), BulletsOf(cloud), choices);
    forall k | k in kept ensures BulletId(kept[k]) == k {
      KeptBulletSource(local, cloud, choices, k);
    }
    var orders := BulletOrders(local, cloud, choices);
    ArrangedOrder(kept, BulletId, orders.0, orders.1);
    KeptBulletSource(local, cloud, choices, b.id);
  }

  /** Every merged bullet is, in one piece, a bullet of the same section of one of the two snapshots. */
  lemma BulletsComeWhole(local: Snapshot, cloud: Snapshot, choices: Choices, s: Section, b: Bullet)
    requires s in Merged(local, cloud, choices).sections && b in s.items
    ensures HasBullet(local, s.id, b) || HasBullet(cloud, s.id, b)
  {
    hide SectionsOf, Merged, MergedSection;
    var l, c := SectionsOf(local), SectionsOf(cloud);
    MergedOrder(local, cloud, choices);
    if s.id in l { SectionEntry(local, s.id); }
    if s.id in c { SectionEntry(cloud, s.id); }
    if s.id in l && s.id in c {
      MergedItemSource(l[s.id], c[s.id], choices, b);
    }
  }

  /** Which ids survive: the shared ones, and of the others those whose presence choice is their own side. */
  predicate Survives(inLocal: bool, inCloud: bool, choice: Choice) {
    if inLocal && inCloud then true
    else if inLocal then choice == Local
    else inCloud && choice == Cloud
  }

  /** No section is lost, duplicated or invented. */
  lemma SectionsKept(local: Snapshot, cloud: Snapshot, choices: Choices, k: Key)
    requires NoDup(SectionOrder(local)) && NoDup(SectionOrder(cloud))
    ensures NoDup(SectionOrder(Merged(local, cloud, choices)))
    ensures k in SectionOrder(Merged(local, cloud, choices))
       <==> Survives(k in SectionOrder(local), k in SectionOrder(cloud), Side(choices, SectionPresence(k)))
  {
    hide SectionsOf, Merged, MergedSection, Reconciled;
    MergedOrder(local, cloud, choices);
    var kept := KeptSections(SectionsOf(local), SectionsOf(cloud), choices);
    var orders := SectionOrders(local, cloud, choices);
    EachKeptKeyOnce(kept.Keys, orders.0, orders.1);
    assert k in SectionOrder(Merged(local, cloud, choices))
           <==> k in Elems(SectionOrder(Merged(local, cloud, choices)));
    assert k in SectionOrder(local) <==> k in Elems(SectionOrder(local));
    assert k in SectionOrder(cloud) <==> k in Elems(SectionOrder(cloud));
  }

  /** No bullet of a shared section is lost, duplicated or invented. */
  lemma BulletsKept(local: Section, cloud: Section, choices: Choices, k: Key)
    requires local.id == cloud.id && NoDup(BulletOrder(local)) && NoDup(BulletOrder(cloud))
    ensures NoDup(BulletOrder(MergedSection(local, cloud, choices)))
    ensures k in BulletOrder(MergedSection(local, cloud, choices))
       <==> Survives(k in BulletOrder(local), k in BulletOrder(cloud), Side(choices, BulletPresence(local.id, k)))
  {
    hide BulletsOf, Arranged, Reconciled, MergedBullet, Ids;
    MergedItemOrder(local, cloud, choices);
    var kept := KeptBullets(local.id, BulletsOf(local), BulletsOf(cloud), choices);
    var orders := BulletOrders(local, cloud, choices);
    EachKeptKeyOnce(kept.Keys, orders.0, orders.1);
    var merged := BulletOrder(MergedSection(local, cloud, choices));
    assert k in merged <==> k in Elems(merged);
    assert k in BulletOrder(local) <==> k in Elems(BulletOrder(local));
    assert k in BulletOrder(cloud) <==> k in Elems(BulletOrder(cloud));
  }

  /** The merge of two snapshots with unique ids has unique ids again. */
  lemma MergeKeepsUniqueIds(local: Snapshot, cloud: Snapshot, choices: Choices)
    requires UniqueIds(local) && UniqueIds(cloud)
    ensures UniqueIds(Merged(local, cloud, choices))
  {
    hide SectionsOf, Merged, MergedSection, BulletOrder;
    var merged, l, c := Merged(local, cloud, choices), SectionsOf(local), SectionsOf(cloud);
    SectionsKept(local, cloud, choices, "");
    MergedOrder(local, cloud, choices);
    forall i | 0 <= i < |merged.sections| ensures NoDup(BulletOrder(merged.sections[i])) {
      var k := merged.sections[i].id;
      if k in l { SectionEntry(local, k); }
      if k in c { SectionEntry(cloud, k); }
      if k in l && k in c {
        BulletsKept(l[k], c[k], choices, "");
      }
    }
  }

  /** The section order that the choice prefers comes out unbroken; the other one too, exactly when they agree. */
  lemma SectionOrdersKept(local: Snapshot, cloud: Snapshot, choices: Choices)
    requires NoDup(SectionOrder(local)) && NoDup(SectionOrder(cloud))
    ensures var kept := KeptSections(SectionsOf(local), SectionsOf(cloud), choices).Keys;
            var orders := SectionOrders(local, cloud, choices);
            var merged := SectionOrder(Merged(local, cloud, choices));
            && Project(merged, Elems(orders.0)) == Project(orders.0, kept)
            && (Project(merged, Elems(orders.1)) == Project(orders.1, kept)
                <==> Agree(kept, orders.0, orders.1) && !EmptyKeyTrap(kept, orders.0, orders.1))
  {
    hide KeptSections, SectionsOf, SectionOrder, Merged, Reconciled, Agree, EmptyKeyTrap;
    MergedOrder(local, cloud, choices);
    var kept := KeptSections(SectionsOf(local), SectionsOf(cloud), choices).Keys;
    var orders := SectionOrders(local, cloud, choices);
    PreferredOrderKept(kept, orders.0, orders.1);
    SecondaryOrderKeptIff(kept, orders.0, orders.1);
  }

  /** The same for the bullets of a shared section. */
  lemma BulletOrdersKept(local: Section, cloud: Section, choices: Choices)
    requires local.id == cloud.id && NoDup(BulletOrder(local)) && NoDup(BulletOrder(cloud))
    ensures var kept := KeptBullets(local.id, BulletsOf(local), BulletsOf(cloud), choices).Keys;
            var orders := BulletOrders(local, cloud, choices);
            var merged := BulletOrder(MergedSection(local, cloud, choices));
            && Project(merged, Elems(orders.0)) == Project(orders.0, kept)
            && (Project(merged, Elems(orders.1)) == Project(orders.1, kept)
                <==> Agree(kept, orders.0, orders.1) && !EmptyKeyTrap(kept, orders.0, orders.1))
  {
    hide KeptBullets, BulletsOf, BulletOrder, MergedSection, Reconciled, Agree, EmptyKeyTrap;
    MergedItemOrder(local, cloud, choices);
    var kept := KeptBullets(local.id, BulletsOf(local), BulletsOf(cloud), choices).Keys;
    var orders := BulletOrders(local, cloud, choices);
    PreferredOrderKept(kept, orders.0, orders.1);
    SecondaryOrderKeptIff(kept, orders.0, orders.1);
  }

  // ----- why ids have to be unique -----

  function OneSection(items: seq<Bullet>): Snapshot {
    Snapshot("t", None, [Section("s", "custom", "S", items)])
  }

  lemma ByIdOfPair(x: Bullet, y: Bullet)
    requires x.id == y.id
    ensures BulletsOf(Section("s", "custom", "S", [x, y])) == map[x.id := y]
  {
    assert [x, y][..1] == [x] && [x][..0] == [];
    assert [x, y][1..] == [y] && [y][1..] == [];
    assert ById([x], BulletId) == map[x.id := x];
  }

  lemma SectionsOfOne(items: seq<Bullet>)
    ensures SectionsOf(OneSection(items)) == map["s" := Section("s", "custom", "S", items)]
  {
  }

  /** With a repeated bullet id a snapshot conflicts with itself. */
  lemma RepeatedIdConflictsWithItself(x: Bullet, y: Bullet)
    requires x.id == y.id && x.text != y.text
    ensures BulletText("s", x.id) in Conflicts(OneSection([x, y]), OneSection([x, y]))
  {
    var section := Section("s", "custom", "S", [x, y]);
    ByIdOfPair(x, y);
    InBulletConflicts("s", [x, y], BulletsOf(section), BulletText("s", x.id));
    assert [x, y][0] == x;
    SectionsOfOne([x, y]);
    InSharedSectionConflicts([section], SectionsOf(OneSection([x, y])), BulletText("s", x.id));
    assert [section][0] == section;
  }

  lemma OrderOfPair(x: Bullet, y: Bullet)
    ensures BulletOrder(Section("s", "custom", "S", [x, y])) == [x.id, y.id]
  {
    var order := BulletOrder(Section("s", "custom", "S", [x, y]));
    assert |order| == 2 && order[0] == BulletId([x, y][0]) && order[1] == BulletId([x, y][1]);
  }

  lemma OrderOfOne(items: seq<Bullet>)
    ensures SectionOrder(OneSection(items)) == ["s"]
  {
    var order := SectionOrder(OneSection(items));
    assert |order| == 1 && order[0] == SectionId(OneSection(items).sections[0]);
  }

  /** With a repeated bullet id two different snapshots may have no conflict. */
  lemma RepeatedIdHidesDifference(x: Bullet, y: Bullet)
    requires x.id == y.id && x.text != y.text
    ensures Conflicts(OneSection([x, x]), OneSection([y, x])) == []
  {
    var local, cloud := Section("s", "custom", "S", [x, x]), Section("s", "custom", "S", [y, x]);
    assert SectionConflicts(local, cloud) == [] by {
      OrderOfPair(x, x);
      OrderOfPair(y, x);
      NothingOnlyOneSide(BulletOrder(local));
      ByIdOfPair(y, x);
      assert [x, x][..1] == [x] && [x][..0] == [];
      assert BulletConflicts("s", [x], BulletsOf(cloud)) == [];
    }
    SectionsOfOne([y, x]);
    OrderOfOne([x, x]);
    OrderOfOne([y, x]);
    NothingOnlyOneSide(SectionOrder(OneSection([x, x])));
    assert [local][..0] == [];
    assert SharedSectionConflicts([local], SectionsOf(OneSection([y, x]))) == [];
  }

  // ----- the order of the list, which decides the choice that is asked for first -----

  /** Title, target, presences and order of the sections come before what is inside a section. */
  function Rank(id: ConflictId): nat {
    match id
    case SnapshotTitle => 0
    case SnapshotTarget => 1
    case SectionPresence(_) => 2
    case SectionsOrder => 3
    case _ => 4
  }

  /** Inside a section: title, type, presences and order of the bullets, then their contents. */
  function RankInside(id: ConflictId): nat {
    match id
    case SectionTitle(_) => 0
    case SectionType(_) => 1
    case BulletPresence(_, _) => 2
    case BulletsOrder(_) => 3
    case _ => 4
  }

  predicate Ascends(ids: seq<ConflictId>, rank: ConflictId -> nat) {
    forall i, j :: 0 <= i < j < |ids| ==> rank(ids[i]) <= rank(ids[j])
  }

  /** All of one rank. */
  predicate Level(ids: seq<ConflictId>, rank: ConflictId -> nat, n: nat) {
    forall i :: 0 <= i < |ids| ==> rank(ids[i]) == n
  }

  lemma LevelsAscend(a: seq<ConflictId>, b: seq<ConflictId>, c: seq<ConflictId>, d: seq<ConflictId>,
                     e: seq<ConflictId>, rank: ConflictId -> nat)
    requires Level(a, rank, 0) && Level(b, rank, 1) && Level(c, rank, 2) && Level(d, rank, 3) && Level(e, rank, 4)
    ensures Ascends(a + b + c + d + e, rank)
  {
  }

  lemma ContentConflictsInside(section: Key, items: seq<Bullet>, cloud: map<Key, Bullet>)
    ensures Level(BulletConflicts(section, items, cloud), RankInside, 4)
    ensures Level(BulletConflicts(section, items, cloud), Rank, 4)
  {
    hide BulletConflicts;
    var content := BulletConflicts(section, items, cloud);
    forall i | 0 <= i < |content| ensures content[i].BulletText? || content[i].BulletFactRefs? {
      InBulletConflicts(section, items, cloud, content[i]);
    }
  }

  lemma SectionConflictsInside(local: Section, cloud: Section)
    ensures Level(SectionConflicts(local, cloud), Rank, 4)
  {
    hide BulletConflicts, AllIds, OnlyOneSide, Project, BulletOrder, BulletsOf;
    ContentConflictsInside(local.id, local.items, BulletsOf(cloud));
  }

  /** Within one section the list ascends. */
  lemma SectionListAscends(local: Section, cloud: Section)
    ensures Ascends(SectionConflicts(local, cloud), RankInside)
  {
    hide BulletConflicts, AllIds, OnlyOneSide, Project, BulletOrder, BulletsOf;
    ContentConflictsInside(local.id, local.items, BulletsOf(cloud));
    var localOrder, cloudOrder := BulletOrder(local), BulletOrder(cloud);
    var differing := Project(AllIds(localOrder, cloudOrder), OnlyOneSide(localOrder, cloudOrder));
    LevelsAscend(When(local.title != cloud.title, SectionTitle(local.id)),
                 When(local.kind != cloud.kind, SectionType(local.id)), BulletPresences(local.id, differing),
                 When(localOrder != cloudOrder, BulletsOrder(local.id)),
                 BulletConflicts(local.id, local.items, BulletsOf(cloud)), RankInside);
  }

  /** The whole list ascends. */
  lemma ListAscends(local: Snapshot, cloud: Snapshot)
    ensures Ascends(Conflicts(local, cloud), Rank)
  {
    hide SharedSectionConflicts, SectionConflicts, AllIds, OnlyOneSide, Project, SectionOrder, SectionsOf;
    var shared := SharedSectionConflicts(local.sections, SectionsOf(cloud));
    forall i | 0 <= i < |shared| ensures Rank(shared[i]) == 4 {
      InSharedSectionConflicts(local.sections, SectionsOf(cloud), shared[i]);
      var n :| 0 <= n < |local.sections| && local.sections[n].id in SectionsOf(cloud)
               && shared[i] in SectionConflicts(local.sections[n], SectionsOf(cloud)[local.sections[n].id]);
      SectionConflictsInside(local.sections[n], SectionsOf(cloud)[local.sections[n].id]);
    }
    var localOrder, cloudOrder := SectionOrder(local), SectionOrder(cloud);
    LevelsAscend(When(local.title != cloud.title, SnapshotTitle), When(local.target != cloud.target, SnapshotTarget),
                 SectionPresences(Project(AllIds(localOrder, cloudOrder), OnlyOneSide(localOrder, cloudOrder))),
                 When(localOrder != cloudOrder, SectionsOrder), shared, Rank);
  }

  /** The shared sections come in the order of the local snapshot. */
  lemma {:induction false} SectionsInLocalOrder(sections: seq<Section>, cloud: map<Key, Section>, i: nat, j: nat)
    requires i < j < |SharedSectionConflicts(sections, cloud)|
    ensures exists a, b :: 0 <= a <= b < |sections| && sections[a].id in cloud && sections[b].id in cloud
                           && SharedSectionConflicts(sections, cloud)[i]
                              in SectionConflicts(sections[a], cloud[sections[a].id])
                           && SharedSectionConflicts(sections, cloud)[j]
                              in SectionConflicts(sections[b], cloud[sections[b].id])
  {
    hide SectionConflicts;
    var last := |sections| - 1;
    var all, before := SharedSectionConflicts(sections, cloud), SharedSectionConflicts(sections[..last], cloud);
    if j < |before| {
      SectionsInLocalOrder(sections[..last], cloud, i, j);
      var a, b :| 0 <= a <= b < last && sections[..last][a].id in cloud && sections[..last][b].id in cloud
                  && before[i] in SectionConflicts(sections[..last][a], cloud[sections[..last][a].id])
                  && before[j] in SectionConflicts(sections[..last][b], cloud[sections[..last][b].id]);
      assert sections[a] == sections[..last][a] && sections[b] == sections[..last][b];
    } else {
      InSharedSectionConflicts(sections, cloud, all[i]);
      var a :| 0 <= a < |sections| && sections[a].id in cloud
               && all[i] in SectionConflicts(sections[a], cloud[sections[a].id]);
      assert all[j] in SectionConflicts(sections[last], cloud[sections[last].id]);
    }
  }

  /** And the contents of a section's bullets in the order of its local bullets. */
  lemma {:induction false} BulletsInLocalOrder(section: Key, items: seq<Bullet>, cloud: map<Key, Bullet>,
                                               i: nat, j: nat)
    requires i < j < |BulletConflicts(section, items, cloud)|
    ensures exists a, b :: 0 <= a <= b < |items|
                           && BulletConflicts(section, items, cloud)[i] in BulletConflict(section, items[a], cloud)
                           && BulletConflicts(section, items, cloud)[j] in BulletConflict(section, items[b], cloud)
  {
    hide BulletConflict;
    var last := |items| - 1;
    var all, before := BulletConflicts(section, items, cloud), BulletConflicts(section, items[..last], cloud);
    if j < |before| {
      BulletsInLocalOrder(section, items[..last], cloud, i, j);
      var a, b :| 0 <= a <= b < last && before[i] in BulletConflict(section, items[..last][a], cloud)
                  && before[j] in BulletConflict(section, items[..last][b], cloud);
      assert items[a] == items[..last][a] && items[b] == items[..last][b];
    } else {
      InBulletConflicts(section, items, cloud, all[i]);
      var a :| 0 <= a < |items| && all[i] in BulletConflict(section, items[a], cloud);
      assert all[j] in BulletConflict(section, items[last], cloud);
    }
  }
}
