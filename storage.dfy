/**
 * The browser's key/value storage as the to-do editor uses it: four named
 * slots, each holding one collection. A slot holds the collection's parsed
 * value rather than its JSON text.
 */
module Storage {
  import opened Todo

  /** The value kept in one slot. */
  datatype Slot =
    | SavedTitleInputs(titleInputs: seq<TitleTask>)
    | SavedDescInputs(descInputs: seq<DescTask>)
    | SavedTasks(tasks: seq<TaskDisplay>)

  /** The four slots the editor reads and writes. */
  datatype Key = TitleInputsKey | DescInputsKey | TitleTasksKey | DescTasksKey {
    /** The name the slot is stored under. */
    function Name(): string {
      match this
      case TitleInputsKey => "titleInputs"
      case DescInputsKey => "descInputs"
      case TitleTasksKey => "titleTasks"
      case DescTasksKey => "descTasks"
    }
  }

  /** The slot names are pairwise distinct, so each key has its own slot. */
  lemma NamesDistinct(a: Key, b: Key)
    requires a != b
    ensures a.Name() != b.Name()
  {
    assert "titleInputs"[5] != "titleTasks"[5];
    assert "descInputs"[4] != "descTasks"[4];
  }

  /** The editor's view of the browser storage: what each of its slots holds. */
  type Store = map<Key, Slot>

  /** `localStorage.setItem(key, ...)`: overwrites one slot and no other. */
  function Save(store: Store, key: Key, value: Slot): Store {
    store[key := value]
  }

  /** The initial value of the simple drafts: the saved list, or one blank
      row when the slot is absent. */
  function LoadTitleInputs(store: Store): (r: seq<TitleTask>)
    ensures TitleInputsKey !in store ==> r == [BlankTitleTask]
    ensures TitleInputsKey in store && store[TitleInputsKey].SavedTitleInputs? ==>
              r == store[TitleInputsKey].titleInputs
  {
    if TitleInputsKey in store && store[TitleInputsKey].SavedTitleInputs?
    then store[TitleInputsKey].titleInputs
    else [BlankTitleTask]
  }

  /** The initial value of the detailed drafts: the saved list, or one blank
      row when the slot is absent. */
  function LoadDescInputs(store: Store): (r: seq<DescTask>)
    ensures DescInputsKey !in store ==> r == [BlankDescTask]
    ensures DescInputsKey in store && store[DescInputsKey].SavedDescInputs? ==>
              r == store[DescInputsKey].descInputs
  {
    if DescInputsKey in store && store[DescInputsKey].SavedDescInputs?
    then store[DescInputsKey].descInputs
    else [BlankDescTask]
  }

  /** The initial value of a task list: the saved list, or the empty list
      when the slot is absent. */
  function LoadTasks(store: Store, key: Key): (r: seq<TaskDisplay>)
    ensures key !in store ==> r == []
    ensures key in store && store[key].SavedTasks? ==> r == store[key].tasks
  {
    if key in store && store[key].SavedTasks? then store[key].tasks else []
  }

  /** Loading a slot right after saving a collection into it gives that
      collection back, whatever the store held before. */
  lemma LoadAfterSave(store: Store, titles: seq<TitleTask>, descs: seq<DescTask>,
                      tasks: seq<TaskDisplay>, key: Key)
    ensures LoadTitleInputs(Save(store, TitleInputsKey, SavedTitleInputs(titles))) == titles
    ensures LoadDescInputs(Save(store, DescInputsKey, SavedDescInputs(descs))) == descs
    ensures LoadTasks(Save(store, key, SavedTasks(tasks)), key) == tasks
  {
  }

  /** Saving into one slot leaves what every other slot loads unchanged. */
  lemma SaveLeavesOtherSlots(store: Store, key: Key, value: Slot, other: Key)
    requires key != other
    ensures key != TitleInputsKey ==> LoadTitleInputs(Save(store, key, value)) == LoadTitleInputs(store)
    ensures key != DescInputsKey ==> LoadDescInputs(Save(store, key, value)) == LoadDescInputs(store)
    ensures LoadTasks(Save(store, key, value), other) == LoadTasks(store, other)
  {
  }

  /** Write-through: the draft slots hold `titles` and `descs`, and
      reloading either task slot gives `tasks` and `details` (a task slot may
      still be absent while its list is empty). */
  predicate Mirrors(store: Store, titles: seq<TitleTask>, descs: seq<DescTask>,
                    tasks: seq<TaskDisplay>, details: seq<TaskDisplay>)
  {
    && TitleInputsKey in store && store[TitleInputsKey] == SavedTitleInputs(titles)
    && DescInputsKey in store && store[DescInputsKey] == SavedDescInputs(descs)
    && LoadTasks(store, TitleTasksKey) == tasks
    && LoadTasks(store, DescTasksKey) == details
  }

  /** Saving all four lists makes the store mirror them, whatever it held. */
  lemma SaveAllMirrors(store: Store, titles: seq<TitleTask>, descs: seq<DescTask>,
                       tasks: seq<TaskDisplay>, details: seq<TaskDisplay>)
    ensures Mirrors(store[TitleTasksKey := SavedTasks(tasks)][DescTasksKey := SavedTasks(details)]
                         [TitleInputsKey := SavedTitleInputs(titles)][DescInputsKey := SavedDescInputs(descs)],
                    titles, descs, tasks, details)
  {
    var s := store[TitleTasksKey := SavedTasks(tasks)][DescTasksKey := SavedTasks(details)]
                  [TitleInputsKey := SavedTitleInputs(titles)][DescInputsKey := SavedDescInputs(descs)];
    assert s[TitleTasksKey] == SavedTasks(tasks);
    assert s[DescTasksKey] == SavedTasks(details);
  }
}
