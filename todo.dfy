/**
 * The records of the to-do editor and the pure pieces of its handlers:
 * the submit-time validation, the conversion of drafts into tasks, the
 * removal of a task by id and the splice that deletes a draft row.
 */
module Todo {
  import opened JsString

  datatype Option<T> = None | Some(value: T)

  /** A simple draft row. */
  datatype TitleTask = TitleTask(title: string)

  /** A detailed draft row. */
  datatype DescTask = DescTask(title: string, description: string)

  /** Task ids are JavaScript numbers; they are only ever compared for equality. */
  type Id = real

  /** A committed task; simple tasks carry no description. */
  datatype TaskDisplay = TaskDisplay(id: Id, title: string, description: Option<string>)

  /** The two editable fields of a detailed draft. */
  datatype Field = Title | Description

  const BlankTitleTask := TitleTask("")
  const BlankDescTask := DescTask("", "")

  /** Assigning `d[field] = value` on a detailed draft. */
  function SetField(d: DescTask, field: Field, value: string): (r: DescTask)
    ensures field == Title ==> r.title == value && r.description == d.description
    ensures field == Description ==> r.description == value && r.title == d.title
  {
    match field
    case Title => d.(title := value)
    case Description => d.(description := value)
  }

  // ---------------------------------------------------------------------
  // Validation gate
  // ---------------------------------------------------------------------

  /** `input.title.trim() === ""` for a simple draft. */
  function TitleRowEmpty(d: TitleTask): (b: bool)
    ensures b <==> IsBlank(d.title)
  {
    TrimEmptyIffBlank(d.title);
    Trim(d.title) == ""
  }

  /** A detailed draft whose title or description is blank. */
  predicate IsIncomplete(d: DescTask) {
    IsBlank(d.title) || IsBlank(d.description)
  }

  /** `input.title.trim() === "" || input.description.trim() === ""` for a
      detailed draft. */
  function DescRowEmpty(d: DescTask): (b: bool)
    ensures b <==> IsIncomplete(d)
  {
    TrimEmptyIffBlank(d.title);
    TrimEmptyIffBlank(d.description);
    Trim(d.title) == "" || Trim(d.description) == ""
  }

  /** `titleInputs.some(input => input.title.trim() === "")`. */
  function HasEmptyTitle(inputs: seq<TitleTask>): bool {
    inputs != [] && (TitleRowEmpty(inputs[0]) || HasEmptyTitle(inputs[1..]))
  }

  /** The simple drafts are rejected exactly when one of their titles is blank. */
  lemma {:induction false} HasEmptyTitleIff(inputs: seq<TitleTask>)
    ensures HasEmptyTitle(inputs) <==> exists i :: 0 <= i < |inputs| && IsBlank(inputs[i].title)
  {
    if inputs != [] {
      HasEmptyTitleIff(inputs[1..]);
      if HasEmptyTitle(inputs[1..]) {
        var k :| 0 <= k < |inputs[1..]| && IsBlank(inputs[1..][k].title);
        assert inputs[k + 1] == inputs[1..][k];
      }
      if exists i :: 0 <= i < |inputs| && IsBlank(inputs[i].title) {
        var k :| 0 <= k < |inputs| && IsBlank(inputs[k].title);
        if k > 0 {
          assert inputs[1..][k - 1] == inputs[k];
        }
      }
    }
  }

  /** `descInputs.some(input => input.title.trim() === "" || input.description.trim() === "")`. */
  function HasEmptyDesc(inputs: seq<DescTask>): bool {
    inputs != [] && (DescRowEmpty(inputs[0]) || HasEmptyDesc(inputs[1..]))
  }

  /** The detailed drafts are rejected exactly when one of them has a blank
      title or a blank description. */
  lemma {:induction false} HasEmptyDescIff(inputs: seq<DescTask>)
    ensures HasEmptyDesc(inputs) <==> exists i :: 0 <= i < |inputs| && IsIncomplete(inputs[i])
  {
    if inputs != [] {
      HasEmptyDescIff(inputs[1..]);
      if HasEmptyDesc(inputs[1..]) {
        var k :| 0 <= k < |inputs[1..]| && IsIncomplete(inputs[1..][k]);
        assert inputs[k + 1] == inputs[1..][k];
      }
      if exists i :: 0 <= i < |inputs| && IsIncomplete(inputs[i]) {
        var k :| 0 <= k < |inputs| && IsIncomplete(inputs[k]);
        if k > 0 {
          assert inputs[1..][k - 1] == inputs[k];
        }
      }
    }
  }

  // ---------------------------------------------------------------------
  // Conversion of drafts into tasks
  // ---------------------------------------------------------------------

  /** `titleInputs.map(...)`: one task per simple draft, in draft order, with
      the trimmed title; the k-th of them gets the id `idAt(first + k)`. */
  function ToTitleTasks(inputs: seq<TitleTask>, idAt: nat -> Id, first: nat): (r: seq<TaskDisplay>)
    ensures |r| == |inputs|
    ensures forall i :: 0 <= i < |inputs| ==>
              r[i] == TaskDisplay(idAt(first + i), Trim(inputs[i].title), None)
    decreases |inputs|
  {
    if inputs == [] then []
    else
      var rest := ToTitleTasks(inputs[1..], idAt, first + 1);
      var r := [TaskDisplay(idAt(first), Trim(inputs[0].title), None)] + rest;
      r
  }

  /** `descInputs.map(...)`: one task per detailed draft, in draft order, with
      the trimmed title and the trimmed description. */
  function ToDescTasks(inputs: seq<DescTask>, idAt: nat -> Id, first: nat): (r: seq<TaskDisplay>)
    ensures |r| == |inputs|
    ensures forall i :: 0 <= i < |inputs| ==>
              r[i] == TaskDisplay(idAt(first + i), Trim(inputs[i].title), Some(Trim(inputs[i].description)))
    decreases |inputs|
  {
    if inputs == [] then []
    else
      var rest := ToDescTasks(inputs[1..], idAt, first + 1);
      var r := [TaskDisplay(idAt(first), Trim(inputs[0].title), Some(Trim(inputs[0].description)))] + rest;
      r
  }

  /** A task whose texts are non-empty and carry no surrounding white space. */
  predicate CleanTask(t: TaskDisplay) {
    t.title != "" && Trim(t.title) == t.title &&
    (t.description.Some? ==> t.description.value != "" && Trim(t.description.value) == t.description.value)
  }

  /** Simple drafts that pass the gate become clean tasks without a description. */
  lemma TitleTasksClean(inputs: seq<TitleTask>, idAt: nat -> Id, first: nat)
    requires !HasEmptyTitle(inputs)
    ensures forall t :: t in ToTitleTasks(inputs, idAt, first) ==> CleanTask(t) && t.description == None
  {
    HasEmptyTitleIff(inputs);
    var r := ToTitleTasks(inputs, idAt, first);
    forall i | 0 <= i < |r| ensures CleanTask(r[i]) && r[i].description == None {
      assert !IsBlank(inputs[i].title);
      TrimEmptyIffBlank(inputs[i].title);
      TrimIdempotent(inputs[i].title);
    }
  }

  /** Detailed drafts that pass the gate become clean tasks with a description. */
  lemma DescTasksClean(inputs: seq<DescTask>, idAt: nat -> Id, first: nat)
    requires !HasEmptyDesc(inputs)
    ensures forall t :: t in ToDescTasks(inputs, idAt, first) ==> CleanTask(t) && t.description.Some?
  {
    HasEmptyDescIff(inputs);
    var r := ToDescTasks(inputs, idAt, first);
    forall i | 0 <= i < |r| ensures CleanTask(r[i]) && r[i].description.Some? {
      assert !IsIncomplete(inputs[i]);
      TrimEmptyIffBlank(inputs[i].title);
      TrimIdempotent(inputs[i].title);
      TrimEmptyIffBlank(inputs[i].description);
      TrimIdempotent(inputs[i].description);
    }
  }

  // ---------------------------------------------------------------------
  // Deleting a committed task
  // ---------------------------------------------------------------------

  /** Number of tasks in `tasks` that carry the id `id`. */
  function CountId(tasks: seq<TaskDisplay>, id: Id): nat {
    if tasks == [] then 0 else (if tasks[0].id == id then 1 else 0) + CountId(tasks[1..], id)
  }

  /** `tasks.filter(task => task.id !== id)`. */
  function RemoveById(tasks: seq<TaskDisplay>, id: Id): (r: seq<TaskDisplay>)
    ensures |r| == |tasks| - CountId(tasks, id)
    ensures (forall j :: 0 <= j < |tasks| ==> tasks[j].id != id) ==> r == tasks
  {
    if tasks == [] then []
    else if tasks[0].id == id then RemoveById(tasks[1..], id)
    else [tasks[0]] + RemoveById(tasks[1..], id)
  }

  /** Exactly the tasks carrying `id` go: every other task stays, as often as
      it occurred before. */
  lemma {:induction false} RemoveByIdKeepsOthers(tasks: seq<TaskDisplay>, id: Id)
    ensures forall t :: t in RemoveById(tasks, id) <==> t in tasks && t.id != id
    ensures forall t: TaskDisplay :: t.id != id ==> multiset(RemoveById(tasks, id))[t] == multiset(tasks)[t]
  {
    if tasks != [] {
      RemoveByIdKeepsOthers(tasks[1..], id);
      assert tasks == [tasks[0]] + tasks[1..];
    }
  }

  /** Filtering a concatenation filters each part and keeps them in order,
      so the surviving tasks keep their relative order. */
  lemma {:induction false} RemoveByIdAppend(a: seq<TaskDisplay>, b: seq<TaskDisplay>, id: Id)
    ensures RemoveById(a + b, id) == RemoveById(a, id) + RemoveById(b, id)
  {
    if a == [] {
      assert a + b == b;
    } else {
      assert (a + b)[0] == a[0];
      assert (a + b)[1..] == a[1..] + b;
      RemoveByIdAppend(a[1..], b, id);
    }
  }

  /** Deleting the same id twice is deleting it once. */
  lemma {:induction false} RemoveByIdIdempotent(tasks: seq<TaskDisplay>, id: Id)
    ensures RemoveById(RemoveById(tasks, id), id) == RemoveById(tasks, id)
  {
    var r := RemoveById(tasks, id);
    RemoveByIdKeepsOthers(tasks, id);
    forall j | 0 <= j < |r| ensures r[j].id != id {
      assert r[j] in r;
    }
  }

  // ---------------------------------------------------------------------
  // Deleting a draft row
  // ---------------------------------------------------------------------

  /** The position `Array.prototype.splice(start, ...)` starts at on an array
      of length `len`: a negative start counts from the end, and the result
      is clamped to `0..len`. */
  function SpliceStart(len: nat, start: int): (k: nat)
    ensures k <= len
    ensures 0 <= start <= len ==> k == start
    ensures start > len ==> k == len
    ensures start < 0 && len + start >= 0 ==> k == len + start
    ensures len + start < 0 ==> k == 0
  {
    if start < 0 then (if len + start < 0 then 0 else len + start)
    else if start > len then len
    else start
  }

  /** `rows.splice(start, 1)`: removes the element at the splice position
      when there is one; the elements before it stay and the ones after it
      move down by one. */
  function SpliceOne<T>(rows: seq<T>, start: int): (r: seq<T>)
    ensures var k := SpliceStart(|rows|, start);
      k < |rows| ==>
        |r| == |rows| - 1 &&
        (forall j :: 0 <= j < k ==> r[j] == rows[j]) &&
        (forall j :: k <= j < |r| ==> r[j] == rows[j + 1])
    ensures SpliceStart(|rows|, start) >= |rows| ==> r == rows
  {
    var k := SpliceStart(|rows|, start);
    if k < |rows| then rows[..k] + rows[k + 1..] else rows
  }

  /** `deleteTitleField` / `deleteDescField`: splice one row out and fall back
      to a single blank row when nothing is left. `index` may be any integer,
      with the meaning `splice` gives it (a negative one counts from the end). */
  function DeleteRow<T>(rows: seq<T>, index: int, blank: T): (r: seq<T>)
    ensures r != []
    ensures rows == [] ==> r == [blank]
    ensures var k := SpliceStart(|rows|, index);
      k < |rows| && |rows| == 1 ==> r == [blank]
    ensures var k := SpliceStart(|rows|, index);
      k < |rows| && |rows| > 1 ==>
        |r| == |rows| - 1 &&
        (forall j :: 0 <= j < k ==> r[j] == rows[j]) &&
        (forall j :: k <= j < |r| ==> r[j] == rows[j + 1])
    ensures rows != [] && SpliceStart(|rows|, index) == |rows| ==> r == rows
  {
    var spliced := SpliceOne(rows, index);
    if |spliced| > 0 then spliced else [blank]
  }
}
