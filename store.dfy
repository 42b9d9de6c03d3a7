/** The application's persistent store: four `localStorage` keys (drafts,
    saved cards, achievement state, user name) and the in-memory mirrors of
    three of them, updated by read-modify-write handlers.

    `localStorage` is a map from key to document. A document is either a
    decoded JSON value of the shape its key expects, or raw text (the user
    name, or text that does not parse). A write can fail; each writing
    handler takes the outcome of its `setItem`/`removeItem` as a `fault`
    parameter. The clock reading `Date.now()` is the parameter `now`. */
module Store {
  import opened Shared
  import opened Catalog
  import opened Validation
  import opened Achievements

  datatype StorageKey = SavedKey | AchievementsKey | UserNameKey | DraftsKey

  /** The literal key names. */
  function KeyName(k: StorageKey): string {
    match k
    case SavedKey => "wrapped-saved"
    case AchievementsKey => "wrapped-achievements"
    case UserNameKey => "wrapped-username"
    case DraftsKey => "wrapped-drafts"
  }

  datatype SavedWrapped = SavedWrapped(
    id: string,
    categoryId: string,
    categoryTitle: string,
    categoryIcon: string,
    gradient: Gradient,
    formData: FormData,
    imageDataUrl: string,
    timestamp: int)

  /** A stored value: raw text, or a parsed JSON document. */
  datatype Doc =
    | Raw(text: string)
    | SavedList(items: seq<SavedWrapped>)
    | AchievementsDoc(state: AchievementState)
    | DraftsDoc(drafts: map<string, FormData>)

  type Storage = map<StorageKey, Doc>

  /** The outcome of one `setItem` or `removeItem`. */
  datatype WriteFault = NoFault | QuotaExceeded | Unavailable

  /** What `saveWrapped` ends with: stored, the "storage full" error, or a
      silently swallowed failure. */
  datatype SaveOutcome = Saved | StorageFull | Failed

  const MaxSavedWrappeds: nat := 50
  const ExpiryDays: nat := 30
  const ExpiryMs: nat := ExpiryDays * 24 * 60 * 60 * 1000

  const DefaultAchievementState: AchievementState := AchievementState([], [], 0)

  /** `JSON.parse(localStorage.getItem(key) || fallback)` for a key holding a
      list: `None` where the parse throws. A missing key and an empty string
      both read as the fallback. */
  function ReadSaved(storage: Storage): (r: Option<seq<SavedWrapped>>)
    ensures SavedKey !in storage ==> r == Some([])
    ensures SavedKey in storage && storage[SavedKey].SavedList? ==> r == Some(storage[SavedKey].items)
    ensures SavedKey in storage && storage[SavedKey] == Raw("") ==> r == Some([])
    ensures SavedKey in storage && !storage[SavedKey].SavedList? && storage[SavedKey] != Raw("") ==> r == None
  {
    if SavedKey !in storage then Some([])
    else match storage[SavedKey]
      case SavedList(items) => Some(items)
      case Raw(text) => if text == "" then Some([]) else None
      case _ => None
  }

  /** The same read for the drafts object. */
  function ReadDrafts(storage: Storage): (r: Option<map<string, FormData>>)
    ensures DraftsKey !in storage ==> r == Some(map[])
    ensures DraftsKey in storage && storage[DraftsKey].DraftsDoc? ==> r == Some(storage[DraftsKey].drafts)
    ensures DraftsKey in storage && storage[DraftsKey] == Raw("") ==> r == Some(map[])
    ensures DraftsKey in storage && !storage[DraftsKey].DraftsDoc? && storage[DraftsKey] != Raw("") ==> r == None
  {
    if DraftsKey !in storage then Some(map[])
    else match storage[DraftsKey]
      case DraftsDoc(drafts) => Some(drafts)
      case Raw(text) => if text == "" then Some(map[]) else None
      case _ => None
  }

  /** The initial read of the achievement state: the default when the key is
      missing, empty, or does not parse. */
  function InitialAchievementState(storage: Storage): AchievementState {
    if AchievementsKey in storage && storage[AchievementsKey].AchievementsDoc? then storage[AchievementsKey].state
    else DefaultAchievementState
  }

  /** The initial read of the user name: the stored text, or "". */
  function InitialUserName(storage: Storage): string {
    if UserNameKey in storage && storage[UserNameKey].Raw? then storage[UserNameKey].text else ""
  }

  /** Storage whose list, achievement and drafts keys are missing, empty or
      do not hold a document of their shape, and which holds no user name,
      gives the defaults: an empty saved list mirror, the empty achievement
      state, an empty name and no drafts. */
  lemma InitialDefaults(storage: Storage)
    requires SavedKey in storage ==> !storage[SavedKey].SavedList?
    requires AchievementsKey in storage ==> !storage[AchievementsKey].AchievementsDoc?
    requires UserNameKey in storage ==> storage[UserNameKey] == Raw("")
    requires DraftsKey in storage ==> !storage[DraftsKey].DraftsDoc?
    ensures (if ReadSaved(storage).Some? then ReadSaved(storage).value else []) == []
    ensures InitialAchievementState(storage) == DefaultAchievementState
    ensures DefaultAchievementState == AchievementState([], [], 0)
    ensures InitialUserName(storage) == ""
    ensures ReadDrafts(storage).Some? ==> ReadDrafts(storage).value == map[]
  {
  }

  /** The new list `saveWrapped` writes: the new entry first, then the
      stored list, with one entry dropped from the end when the result is
      longer than the cap. */
  function PrependCapped(w: SavedWrapped, current: seq<SavedWrapped>): (r: seq<SavedWrapped>)
    ensures |r| == if |current| + 1 > MaxSavedWrappeds then |current| else |current| + 1
    ensures r[0] == w && r[1..] == current[..|r| - 1]
  {
    var updated := [w] + current;
    if |updated| > MaxSavedWrappeds then updated[..|updated| - 1] else updated
  }

  /** A list within the cap stays within the cap. */
  lemma PrependCappedBound(w: SavedWrapped, current: seq<SavedWrapped>)
    requires |current| <= MaxSavedWrappeds
    ensures |PrependCapped(w, current)| <= MaxSavedWrappeds
  {
  }

  /** Only ONE entry is dropped: a stored list already over the cap keeps
      its length. */
  lemma PrependCappedOverfull(w: SavedWrapped, current: seq<SavedWrapped>)
    requires |current| > MaxSavedWrappeds
    ensures |PrependCapped(w, current)| == |current| > MaxSavedWrappeds
  {
  }

  /** Newest first: timestamps never increase along the list. */
  predicate NewestFirst(list: seq<SavedWrapped>) {
    forall i, j :: 0 <= i < j < |list| ==> list[i].timestamp >= list[j].timestamp
  }

  /** Prepending an entry no older than every stored one keeps the list
      newest first. */
  lemma PrependCappedNewestFirst(w: SavedWrapped, current: seq<SavedWrapped>)
    requires NewestFirst(current)
    requires forall v :: v in current ==> v.timestamp <= w.timestamp
    ensures NewestFirst(PrependCapped(w, current))
  {
    var r := PrependCapped(w, current);
    forall i, j | 0 <= i < j < |r| ensures r[i].timestamp >= r[j].timestamp {
      assert r[j] == current[j - 1];
      if i > 0 {
        assert r[i] == current[i - 1];
      }
    }
  }

  /** A filter keeps a newest-first list newest first. */
  lemma {:induction false} FilterNewestFirst(list: seq<SavedWrapped>, p: SavedWrapped -> bool)
    requires NewestFirst(list)
    ensures NewestFirst(Filter(list, p))
  {
    if list != [] {
      FilterNewestFirst(list[1..], p);
      var rest := Filter(list[1..], p);
      assert forall v :: v in rest ==> v in list[1..];
      if p(list[0]) {
        var r := [list[0]] + rest;
        forall i, j | 0 <= i < j < |r| ensures r[i].timestamp >= r[j].timestamp {
          if i == 0 {
            assert r[j] in list[1..];
          } else {
            assert r[i] == rest[i - 1] && r[j] == rest[j - 1];
          }
        }
      }
    }
  }

  /** `current.filter(w => w.id !== id)` */
  function WithoutId(list: seq<SavedWrapped>, id: string): seq<SavedWrapped> {
    Filter(list, (w: SavedWrapped) => w.id != id)
  }

  /** Deleting removes every entry with the id and keeps every other entry;
      deleting an id that is absent changes nothing. */
  lemma WithoutIdCorrect(list: seq<SavedWrapped>, id: string)
    ensures forall w :: w in WithoutId(list, id) <==> w in list && w.id != id
    ensures (forall w :: w in list ==> w.id != id) ==> WithoutId(list, id) == list
  {
    FilterKeepsAll(list, (w: SavedWrapped) => w.id != id);
  }

  /** The entries younger than the expiry period at time `now`. */
  predicate Unexpired(w: SavedWrapped, now: int) {
    now - w.timestamp < ExpiryMs
  }

  function KeepUnexpired(list: seq<SavedWrapped>, now: int): seq<SavedWrapped> {
    Filter(list, (w: SavedWrapped) => Unexpired(w, now))
  }

  /** Cleanup keeps exactly the unexpired entries, in order, removes nothing
      when nothing has expired, and a second cleanup at the same time removes
      nothing more. */
  lemma KeepUnexpiredCorrect(list: seq<SavedWrapped>, now: int)
    ensures forall w :: w in KeepUnexpired(list, now) <==> w in list && Unexpired(w, now)
    ensures |KeepUnexpired(list, now)| == |list| <==> forall w :: w in list ==> Unexpired(w, now)
    ensures KeepUnexpired(KeepUnexpired(list, now), now) == KeepUnexpired(list, now)
  {
    FilterKeepsAll(list, (w: SavedWrapped) => Unexpired(w, now));
    FilterIdempotent(list, (w: SavedWrapped) => Unexpired(w, now));
  }

  /** Whether cleanup writes: the list reads, something in it has expired,
      and the write succeeds. */
  predicate CleanupWrites(storage: Storage, now: int, fault: WriteFault) {
    && ReadSaved(storage).Some?
    && |KeepUnexpired(ReadSaved(storage).value, now)| != |ReadSaved(storage).value|
    && fault == NoFault
  }

  /** The points the catalog gives an id (0 for an unknown id). */
  function PointsOf(catalog: seq<Achievement>, id: string): int {
    match GetAchievementById(catalog, id)
    case Some(a) => a.points
    case None => 0
  }

  /** The sum of the points of the recorded entries. */
  function SumPoints(catalog: seq<Achievement>, unlocked: seq<UnlockedAchievement>): int {
    if unlocked == [] then 0
    else SumPoints(catalog, unlocked[..|unlocked| - 1]) + PointsOf(catalog, unlocked[|unlocked| - 1].achievementId)
  }

  /** The achievement-state invariant: each id recorded once, and the total
      equal to the points of what is recorded. */
  predicate ConsistentState(catalog: seq<Achievement>, state: AchievementState) {
    && DistinctStrings(EntryIds(state.unlocked))
    && state.totalPoints == SumPoints(catalog, state.unlocked)
  }

  /** Recording one more entry for a new id adds exactly its points and keeps
      the state consistent. */
  lemma RecordKeepsConsistent(catalog: seq<Achievement>, state: AchievementState, u: UnlockedAchievement, a: Achievement)
    requires ConsistentState(catalog, state)
    requires u.achievementId !in UnlockedIds(state)
    requires GetAchievementById(catalog, u.achievementId) == Some(a)
    ensures ConsistentState(catalog, state.(unlocked := state.unlocked + [u], totalPoints := state.totalPoints + a.points))
  {
    var us := state.unlocked + [u];
    assert us[..|us| - 1] == state.unlocked;
    var ids := EntryIds(us);
    forall i, j | 0 <= i < j < |ids| ensures ids[i] != ids[j] {
      assert state.unlocked[i] in state.unlocked;
      if j < |us| - 1 {
        assert ids[i] == EntryIds(state.unlocked)[i] && ids[j] == EntryIds(state.unlocked)[j];
      }
    }
  }

  /** The entries recorded but not yet seen, in order. */
  function Unseen(state: AchievementState): (r: seq<UnlockedAchievement>)
    ensures forall u :: u in r <==> u in state.unlocked && u.achievementId !in state.seenAchievements
  {
    Filter(state.unlocked, NotSeen(state))
  }

  /** The test `getUnseenAchievements` filters by. */
  function NotSeen(state: AchievementState): UnlockedAchievement -> bool {
    (u: UnlockedAchievement) => u.achievementId !in state.seenAchievements
  }

  /** The unseen entries keep their recorded order, and an entry recorded
      twice is reported as often as it is recorded. */
  lemma UnseenInOrder(state: AchievementState)
    ensures Subsequence(Unseen(state), state.unlocked)
    ensures forall u: UnlockedAchievement :: u.achievementId !in state.seenAchievements ==>
      multiset(Unseen(state))[u] == multiset(state.unlocked)[u]
  {
    FilterSubsequence(state.unlocked, NotSeen(state));
    FilterMultiplicity(state.unlocked, NotSeen(state));
  }

  class AppStore {
    /** `localStorage`, restricted to the application's four keys. */
    var storage: Storage
    /** The mirrors held in React state. */
    var savedWrappeds: seq<SavedWrapped>
    var achievementState: AchievementState
    var userName: string
    /** The achievement catalog `getAchievementById` searches. */
    const catalog: seq<Achievement>

    /** Mounting the provider: each mirror starts from its storage read,
        falling back to its default. */
    constructor (initial: Storage, achievements: seq<Achievement>)
      ensures storage == initial && catalog == achievements
      ensures savedWrappeds == (if ReadSaved(initial).Some? then ReadSaved(initial).value else [])
      ensures achievementState == InitialAchievementState(initial)
      ensures userName == InitialUserName(initial)
    {
      storage := initial;
      catalog := achievements;
      var read := ReadSaved(initial);
      savedWrappeds := if read.Some? then read.value else [];
      achievementState := InitialAchievementState(initial);
      userName := InitialUserName(initial);
    }

    /** `setUserName`: stored as raw text, mirrored only once stored. */
    method SetUserName(name: string, fault: WriteFault)
      modifies this
      ensures fault == NoFault ==> storage == old(storage)[UserNameKey := Raw(name)] && userName == name
      ensures fault != NoFault ==> storage == old(storage) && userName == old(userName)
      ensures savedWrappeds == old(savedWrappeds) && achievementState == old(achievementState)
    {
      if fault == NoFault {
        storage := storage[UserNameKey := Raw(name)];
        userName := name;
      }
    }

    /** `cleanupExpiredWrappeds`: re-reads the stored list and, only when some
        entry has expired, writes and mirrors the unexpired ones. */
    method CleanupExpiredWrappeds(now: int, fault: WriteFault)
      modifies this
      ensures CleanupWrites(old(storage), now, fault) ==>
          && storage == old(storage)[SavedKey := SavedList(KeepUnexpired(ReadSaved(old(storage)).value, now))]
          && savedWrappeds == KeepUnexpired(ReadSaved(old(storage)).value, now)
      ensures !CleanupWrites(old(storage), now, fault) ==>
          storage == old(storage) && savedWrappeds == old(savedWrappeds)
      ensures achievementState == old(achievementState) && userName == old(userName)
    {
      var read := ReadSaved(storage);
      if read.None? {
        return;
      }
      var saved := read.value;
      var valid := KeepUnexpired(saved, now);
      if |valid| != |saved| {
        if fault != NoFault {
          return;
        }
        storage := storage[SavedKey := SavedList(valid)];
        savedWrappeds := valid;
      }
    }

    /** The draft stored for a category, if any: `None` when the drafts
        object does not parse or has no entry for the category. */
    function GetDraft(categoryId: string): (r: Option<FormData>)
      reads this
      ensures r.Some? <==> ReadDrafts(storage).Some? && categoryId in ReadDrafts(storage).value
      ensures r.Some? ==> r.value == ReadDrafts(storage).value[categoryId]
    {
      match ReadDrafts(storage)
      case None => None
      case Some(drafts) => if categoryId in drafts then Some(drafts[categoryId]) else None
    }

    /** `saveDraft`: sets one entry of the stored drafts object. */
    method SaveDraft(categoryId: string, data: FormData, fault: WriteFault)
      modifies this
      ensures ReadDrafts(old(storage)).Some? && fault == NoFault ==>
        storage == old(storage)[DraftsKey := DraftsDoc(ReadDrafts(old(storage)).value[categoryId := data])]
      ensures !(ReadDrafts(old(storage)).Some? && fault == NoFault) ==> storage == old(storage)
      ensures ReadDrafts(old(storage)).Some? && fault == NoFault ==>
        GetDraft(categoryId) == Some(data) && forall other :: other != categoryId ==> GetDraft(other) == old(GetDraft(other))
      ensures savedWrappeds == old(savedWrappeds) && achievementState == old(achievementState) && userName == old(userName)
    {
      var read := ReadDrafts(storage);
      if read.None? || fault != NoFault {
        return;
      }
      var drafts := read.value;
      drafts := drafts[categoryId := data];
      storage := storage[DraftsKey := DraftsDoc(drafts)];
    }

    /** `clearDraft`: removes one entry of the stored drafts object (and
        writes the object back even when the entry was absent). */
    method ClearDraft(categoryId: string, fault: WriteFault)
      modifies this
      ensures ReadDrafts(old(storage)).Some? && fault == NoFault ==>
        storage == old(storage)[DraftsKey := DraftsDoc(ReadDrafts(old(storage)).value - {categoryId})]
      ensures !(ReadDrafts(old(storage)).Some? && fault == NoFault) ==> storage == old(storage)
      ensures ReadDrafts(old(storage)).Some? && fault == NoFault ==>
        GetDraft(categoryId) == None && forall other :: other != categoryId ==> GetDraft(other) == old(GetDraft(other))
      ensures savedWrappeds == old(savedWrappeds) && achievementState == old(achievementState) && userName == old(userName)
    {
      var read := ReadDrafts(storage);
      if read.None? || fault != NoFault {
        return;
      }
      var drafts := read.value;
      drafts := drafts - {categoryId};
      storage := storage[DraftsKey := DraftsDoc(drafts)];
    }

    /** The entry `saveWrapped` creates. */
    static function NewWrapped(category: Subcategory, formData: FormData, imageDataUrl: string, now: nat): SavedWrapped {
      SavedWrapped(category.id + "-" + NatToString(now), category.id, category.title, category.icon,
        category.gradient, formData, imageDataUrl, now)
    }

    /** `saveWrapped`: re-reads the stored list, prepends the new entry, caps
        the list, writes it, and mirrors it only once written. */
    method SaveWrapped(category: Subcategory, formData: FormData, imageDataUrl: string, now: nat, fault: WriteFault)
      returns (outcome: SaveOutcome)
      modifies this
      ensures outcome == Saved <==> ReadSaved(old(storage)).Some? && fault == NoFault
      ensures outcome == StorageFull <==> ReadSaved(old(storage)).Some? && fault == QuotaExceeded
      ensures outcome == Saved ==>
        && savedWrappeds == PrependCapped(NewWrapped(category, formData, imageDataUrl, now), ReadSaved(old(storage)).value)
        && storage == old(storage)[SavedKey := SavedList(savedWrappeds)]
      ensures outcome != Saved ==> storage == old(storage) && savedWrappeds == old(savedWrappeds)
      ensures achievementState == old(achievementState) && userName == old(userName)
    {
      var newWrapped := NewWrapped(category, formData, imageDataUrl, now);
      var read := ReadSaved(storage);
      if read.None? {
        return Failed;
      }
      var updated := [newWrapped] + read.value;
      if |updated| > MaxSavedWrappeds {
        updated := updated[..|updated| - 1];
      }
      match fault
      case QuotaExceeded => return StorageFull;
      case Unavailable => return Failed;
      case NoFault =>
        storage := storage[SavedKey := SavedList(updated)];
        savedWrappeds := updated;
        return Saved;
    }

    /** `deleteWrapped`: re-reads the stored list and writes and mirrors it
        without the entries carrying the id. */
    method DeleteWrapped(id: string, fault: WriteFault)
      modifies this
      ensures ReadSaved(old(storage)).Some? && fault == NoFault ==>
        && savedWrappeds == WithoutId(ReadSaved(old(storage)).value, id)
        && storage == old(storage)[SavedKey := SavedList(savedWrappeds)]
      ensures !(ReadSaved(old(storage)).Some? && fault == NoFault) ==>
        storage == old(storage) && savedWrappeds == old(savedWrappeds)
      ensures achievementState == old(achievementState) && userName == old(userName)
    {
      var read := ReadSaved(storage);
      if read.None? || fault != NoFault {
        return;
      }
      var filtered := WithoutId(read.value, id);
      storage := storage[SavedKey := SavedList(filtered)];
      savedWrappeds := filtered;
    }

    /** `clearAllWrappeds`: removes the key and empties the mirror. */
    method ClearAllWrappeds(fault: WriteFault)
      modifies this
      ensures fault == NoFault ==> storage == old(storage) - {SavedKey} && savedWrappeds == []
      ensures fault != NoFault ==> storage == old(storage) && savedWrappeds == old(savedWrappeds)
      ensures ReadSaved(storage) == Some(savedWrappeds) || fault != NoFault
      ensures achievementState == old(achievementState) && userName == old(userName)
    {
      if fault == NoFault {
        storage := storage - {SavedKey};
        savedWrappeds := [];
      }
    }

    /** `unlockAchievement`: works from the mirror, not from storage. A
        recorded or unknown id changes nothing; otherwise one entry is
        appended, the points added, the mirror set, and the write attempted,
        its failure swallowed. */
    method UnlockAchievement(achievementId: string, now: int, fault: WriteFault)
      modifies this
      ensures achievementId in UnlockedIds(old(achievementState)) || GetAchievementById(catalog, achievementId).None? ==>
        storage == old(storage) && achievementState == old(achievementState)
      ensures achievementId !in UnlockedIds(old(achievementState)) && GetAchievementById(catalog, achievementId).Some? ==>
        && achievementState == old(achievementState).(
             unlocked := old(achievementState).unlocked + [UnlockedAchievement(achievementId, now, Some(|savedWrappeds|))],
             totalPoints := old(achievementState).totalPoints + GetAchievementById(catalog, achievementId).value.points)
        && storage == (if fault == NoFault then old(storage)[AchievementsKey := AchievementsDoc(achievementState)] else old(storage))
      ensures achievementId in UnlockedIds(achievementState) || GetAchievementById(catalog, achievementId).None?
      ensures ConsistentState(catalog, old(achievementState)) ==> ConsistentState(catalog, achievementState)
      ensures savedWrappeds == old(savedWrappeds) && userName == old(userName)
    {
      if exists u :: u in achievementState.unlocked && u.achievementId == achievementId {
        return;
      }
      var achievement := GetAchievementById(catalog, achievementId);
      if achievement.None? {
        return;
      }
      var entry := UnlockedAchievement(achievementId, now, Some(|savedWrappeds|));
      var newState := achievementState.(
        unlocked := achievementState.unlocked + [entry],
        totalPoints := achievementState.totalPoints + achievement.value.points);
      if ConsistentState(catalog, achievementState) {
        RecordKeepsConsistent(catalog, achievementState, entry, achievement.value);
      }
      assert entry in newState.unlocked;
      achievementState := newState;
      if fault == NoFault {
        storage := storage[AchievementsKey := AchievementsDoc(newState)];
      }
    }

    /** `markAchievementSeen`: works from the mirror; an id already seen
        changes nothing (whether or not it is unlocked). */
    method MarkAchievementSeen(achievementId: string, fault: WriteFault)
      modifies this
      ensures achievementId in old(achievementState).seenAchievements ==>
        storage == old(storage) && achievementState == old(achievementState)
      ensures achievementId !in old(achievementState).seenAchievements ==>
        && achievementState == old(achievementState).(seenAchievements := old(achievementState).seenAchievements + [achievementId])
        && storage == (if fault == NoFault then old(storage)[AchievementsKey := AchievementsDoc(achievementState)] else old(storage))
      ensures achievementId in achievementState.seenAchievements
      ensures forall u :: u in Unseen(achievementState) ==> u.achievementId != achievementId
      ensures ConsistentState(catalog, old(achievementState)) ==> ConsistentState(catalog, achievementState)
      ensures savedWrappeds == old(savedWrappeds) && userName == old(userName)
    {
      if achievementId in achievementState.seenAchievements {
        return;
      }
      var newState := achievementState.(seenAchievements := achievementState.seenAchievements + [achievementId]);
      achievementState := newState;
      if fault == NoFault {
        storage := storage[AchievementsKey := AchievementsDoc(newState)];
      }
    }

    /** `getUnseenAchievements` */
    function GetUnseenAchievements(): (r: seq<UnlockedAchievement>)
      reads this
      ensures forall u :: u in r <==> u in achievementState.unlocked && u.achievementId !in achievementState.seenAchievements
      ensures Subsequence(r, achievementState.unlocked)
    {
      UnseenInOrder(achievementState);
      Unseen(achievementState)
    }

    /** With storage holding no drafts object of its shape, no category has
        a draft. */
    lemma NoDraftWithoutDrafts(categoryId: string)
      requires DraftsKey in storage ==> !storage[DraftsKey].DraftsDoc?
      ensures GetDraft(categoryId) == None
    {
    }
  }
}
