/**
 * The `App` component of the to-do editor as one object: its five pieces of
 * state are fields, every handler is one atomic method, and the browser
 * storage is a map of slots that every handler writes through to.
 */
module TodoApp {
  import opened JsString
  import opened Todo
  import opened Storage

  class App {
    var titleInputs: seq<TitleTask>
    var descInputs: seq<DescTask>
    var titleTasks: seq<TaskDisplay>
    var descTasks: seq<TaskDisplay>
    var showErrors: bool
    var storage: Store

    /** Write-through: the draft slots hold the current drafts, and reloading
        either task slot gives the current task list (a task slot may still be
        absent while its list is empty, since nothing saves it at start-up). */
    ghost predicate Valid()
      reads this
    {
      Mirrors(storage, titleInputs, descInputs, titleTasks, descTasks)
    }

    /** Each draft list shows at least one row. */
    ghost predicate DraftsNonEmpty()
      reads this
    {
      titleInputs != [] && descInputs != []
    }

    /** Mounting the component: the four lists are read from `saved`, and the
        two draft effects then write the draft lists back. */
    constructor (saved: Store)
      ensures Valid() && !showErrors
      ensures titleInputs == LoadTitleInputs(saved) && descInputs == LoadDescInputs(saved)
      ensures titleTasks == LoadTasks(saved, TitleTasksKey) && descTasks == LoadTasks(saved, DescTasksKey)
      ensures TitleInputsKey !in saved ==> titleInputs == [BlankTitleTask]
      ensures DescInputsKey !in saved ==> descInputs == [BlankDescTask]
      ensures TitleTasksKey !in saved ==> titleTasks == []
      ensures DescTasksKey !in saved ==> descTasks == []
      ensures storage == saved[TitleInputsKey := SavedTitleInputs(titleInputs)]
                              [DescInputsKey := SavedDescInputs(descInputs)]
    {
      titleInputs := LoadTitleInputs(saved);
      descInputs := LoadDescInputs(saved);
      titleTasks := LoadTasks(saved, TitleTasksKey);
      descTasks := LoadTasks(saved, DescTasksKey);
      showErrors := false;
      new;
      storage := Save(saved, TitleInputsKey, SavedTitleInputs(titleInputs));
      storage := Save(storage, DescInputsKey, SavedDescInputs(descInputs));
    }

    /** `handleTitleChange`: sets the title of the simple draft at `index` and
        hides the validation errors. */
    method HandleTitleChange(index: int, value: string)
      requires Valid()
      requires 0 <= index < |titleInputs|
      modifies this
      ensures Valid()
      ensures |titleInputs| == |old(titleInputs)| && titleInputs[index].title == value
      ensures forall j :: 0 <= j < |titleInputs| && j != index ==> titleInputs[j] == old(titleInputs[j])
      ensures !showErrors
      ensures descInputs == old(descInputs) && titleTasks == old(titleTasks) && descTasks == old(descTasks)
      ensures storage == old(storage)[TitleInputsKey := SavedTitleInputs(titleInputs)]
    {
      titleInputs := titleInputs[index := TitleTask(value)];
      storage := Save(storage, TitleInputsKey, SavedTitleInputs(titleInputs));
      showErrors := false;
    }

    /** `handleDescChange`: sets one field of the detailed draft at `index`
        and hides the validation errors. */
    method HandleDescChange(index: int, field: Field, value: string)
      requires Valid()
      requires 0 <= index < |descInputs|
      modifies this
      ensures Valid()
      ensures |descInputs| == |old(descInputs)|
      ensures field == Title ==>
                descInputs[index].title == value && descInputs[index].description == old(descInputs[index].description)
      ensures field == Description ==>
                descInputs[index].description == value && descInputs[index].title == old(descInputs[index].title)
      ensures forall j :: 0 <= j < |descInputs| && j != index ==> descInputs[j] == old(descInputs[j])
      ensures !showErrors
      ensures titleInputs == old(titleInputs) && titleTasks == old(titleTasks) && descTasks == old(descTasks)
      ensures storage == old(storage)[DescInputsKey := SavedDescInputs(descInputs)]
    {
      descInputs := descInputs[index := SetField(descInputs[index], field, value)];
      storage := Save(storage, DescInputsKey, SavedDescInputs(descInputs));
      showErrors := false;
    }

    /** `addTitleField`: appends one blank simple draft. */
    method AddTitleField()
      requires Valid()
      modifies this
      ensures Valid() && titleInputs != []
      ensures titleInputs == old(titleInputs) + [BlankTitleTask]
      ensures descInputs == old(descInputs) && titleTasks == old(titleTasks) && descTasks == old(descTasks)
      ensures showErrors == old(showErrors)
      ensures storage == old(storage)[TitleInputsKey := SavedTitleInputs(titleInputs)]
    {
      titleInputs := titleInputs + [BlankTitleTask];
      storage := Save(storage, TitleInputsKey, SavedTitleInputs(titleInputs));
    }

    /** `addDescField`: appends one blank detailed draft. */
    method AddDescField()
      requires Valid()
      modifies this
      ensures Valid() && descInputs != []
      ensures descInputs == old(descInputs) + [BlankDescTask]
      ensures titleInputs == old(titleInputs) && titleTasks == old(titleTasks) && descTasks == old(descTasks)
      ensures showErrors == old(showErrors)
      ensures storage == old(storage)[DescInputsKey := SavedDescInputs(descInputs)]
    {
      descInputs := descInputs + [BlankDescTask];
      storage := Save(storage, DescInputsKey, SavedDescInputs(descInputs));
    }

    /** `deleteTitleField`: splices out the simple draft at `index`, keeping
        one blank row when none would be left. */
    method DeleteTitleField(index: int)
      requires Valid()
      modifies this
      ensures Valid() && titleInputs != []
      ensures titleInputs == DeleteRow(old(titleInputs), index, BlankTitleTask)
      ensures descInputs == old(descInputs) && titleTasks == old(titleTasks) && descTasks == old(descTasks)
      ensures showErrors == old(showErrors)
      ensures storage == old(storage)[TitleInputsKey := SavedTitleInputs(titleInputs)]
    {
      titleInputs := DeleteRow(titleInputs, index, BlankTitleTask);
      storage := Save(storage, TitleInputsKey, SavedTitleInputs(titleInputs));
    }

    /** `deleteDescField`: splices out the detailed draft at `index`, keeping
        one blank row when none would be left. */
    method DeleteDescField(index: int)
      requires Valid()
      modifies this
      ensures Valid() && descInputs != []
      ensures descInputs == DeleteRow(old(descInputs), index, BlankDescTask)
      ensures titleInputs == old(titleInputs) && titleTasks == old(titleTasks) && descTasks == old(descTasks)
      ensures showErrors == old(showErrors)
      ensures storage == old(storage)[DescInputsKey := SavedDescInputs(descInputs)]
    {
      descInputs := DeleteRow(descInputs, index, BlankDescTask);
      storage := Save(storage, DescInputsKey, SavedDescInputs(descInputs));
    }

    /** `handleAddForm`: all-or-nothing batch submit. When any draft has a
        blank required field, only `showErrors` changes. Otherwise every draft
        becomes a task (simple ones first take the ids `idAt(0)`, `idAt(1)`,
        ..., the detailed ones the ids after them), both task lists and their
        slots grow, and the drafts reset to one blank row each. */
    method HandleAddForm(idAt: nat -> Id)
      requires Valid()
      modifies this
      ensures Valid()
      ensures showErrors <==> HasEmptyTitle(old(titleInputs)) || HasEmptyDesc(old(descInputs))
      ensures showErrors ==>
                && titleInputs == old(titleInputs) && descInputs == old(descInputs)
                && titleTasks == old(titleTasks) && descTasks == old(descTasks)
                && storage == old(storage)
      ensures !showErrors ==>
                && titleTasks == old(titleTasks) + ToTitleTasks(old(titleInputs), idAt, 0)
                && descTasks == old(descTasks) + ToDescTasks(old(descInputs), idAt, |old(titleInputs)|)
                && titleInputs == [BlankTitleTask] && descInputs == [BlankDescTask]
                && storage == old(storage)[TitleTasksKey := SavedTasks(titleTasks)]
                                          [DescTasksKey := SavedTasks(descTasks)]
                                          [TitleInputsKey := SavedTitleInputs(titleInputs)]
                                          [DescInputsKey := SavedDescInputs(descInputs)]
      ensures !showErrors && old(DraftsNonEmpty()) ==>
                |titleTasks| > |old(titleTasks)| && |descTasks| > |old(descTasks)|
    {
      var hasEmptyTitle := HasEmptyTitle(titleInputs);
      var hasEmptyDesc := HasEmptyDesc(descInputs);
      if hasEmptyTitle || hasEmptyDesc {
        showErrors := true;
        return;
      }
      CommitDrafts(idAt);
    }

    /** The accepting half of `handleAddForm`, from `setShowErrors(false)` on:
        converts every draft, appends and saves both task lists, and resets
        and saves both draft lists. */
    method CommitDrafts(idAt: nat -> Id)
      requires Valid()
      modifies this
      ensures Valid() && !showErrors
      ensures titleTasks == old(titleTasks) + ToTitleTasks(old(titleInputs), idAt, 0)
      ensures descTasks == old(descTasks) + ToDescTasks(old(descInputs), idAt, |old(titleInputs)|)
      ensures titleInputs == [BlankTitleTask] && descInputs == [BlankDescTask]
      ensures storage == old(storage)[TitleTasksKey := SavedTasks(titleTasks)]
                                     [DescTasksKey := SavedTasks(descTasks)]
                                     [TitleInputsKey := SavedTitleInputs(titleInputs)]
                                     [DescInputsKey := SavedDescInputs(descInputs)]
    {
      var tasks := titleTasks + ToTitleTasks(titleInputs, idAt, 0);
      var details := descTasks + ToDescTasks(descInputs, idAt, |titleInputs|);
      SaveAllMirrors(storage, [BlankTitleTask], [BlankDescTask], tasks, details);
      showErrors := false;
      titleTasks := tasks;
      storage := Save(storage, TitleTasksKey, SavedTasks(titleTasks));
      descTasks := details;
      storage := Save(storage, DescTasksKey, SavedTasks(descTasks));
      titleInputs := [BlankTitleTask];
      storage := Save(storage, TitleInputsKey, SavedTitleInputs(titleInputs));
      descInputs := [BlankDescTask];
      storage := Save(storage, DescInputsKey, SavedDescInputs(descInputs));
    }

    /** `handleDeleteTitleTask`: drops every simple task with id `id`. */
    method HandleDeleteTitleTask(id: Id)
      requires Valid()
      modifies this
      ensures Valid()
      ensures titleTasks == RemoveById(old(titleTasks), id)
      ensures titleInputs == old(titleInputs) && descInputs == old(descInputs) && descTasks == old(descTasks)
      ensures showErrors == old(showErrors)
      ensures storage == old(storage)[TitleTasksKey := SavedTasks(titleTasks)]
    {
      titleTasks := RemoveById(titleTasks, id);
      storage := Save(storage, TitleTasksKey, SavedTasks(titleTasks));
    }

    /** `handleDeleteDescTask`: drops every detailed task with id `id`. */
    method HandleDeleteDescTask(id: Id)
      requires Valid()
      modifies this
      ensures Valid()
      ensures descTasks == RemoveById(old(descTasks), id)
      ensures titleInputs == old(titleInputs) && descInputs == old(descInputs) && titleTasks == old(titleTasks)
      ensures showErrors == old(showErrors)
      ensures storage == old(storage)[DescTasksKey := SavedTasks(descTasks)]
    {
      descTasks := RemoveById(descTasks, id);
      storage := Save(storage, DescTasksKey, SavedTasks(descTasks));
    }
  }

  /** From a fresh browser: a blank simple row blocks the submit, and once
      both simple rows are filled the blank detailed row, which is always
      shown, still blocks it. */
  method BlankRowsBlockSubmit()
  {
    var app := new App(map[]);
    var idAt := (k: nat) => k as real;
    app.AddTitleField();
    app.HandleTitleChange(0, "Buy milk");
    assert app.titleInputs == [TitleTask("Buy milk"), BlankTitleTask];
    HasEmptyTitleIff(app.titleInputs);
    assert IsBlank(app.titleInputs[1].title);
    app.HandleAddForm(idAt);
    assert app.showErrors && app.titleTasks == [] && |app.titleInputs| == 2;

    app.HandleTitleChange(1, "Walk dog");
    assert app.descInputs == [BlankDescTask];
    HasEmptyDescIff(app.descInputs);
    assert IsIncomplete(app.descInputs[0]);
    app.HandleAddForm(idAt);
    assert app.showErrors && app.titleTasks == [] && app.descTasks == [];
  }
}
