/**
 * The new-task form: a title and a category (feeding by default). A
 * non-blank title is handed on trimmed, and the form is then reset.
 */
module AddTaskModal {
  import opened Wrappers
  import opened Cattle
  import opened Text

  const DefaultCategory: TaskCategory := Feeding

  /** What `onAdd` receives. */
  datatype NewTask = NewTask(title: string, category: TaskCategory)

  /** `handleSubmit`'s outcome: nothing for a blank title, otherwise the trimmed title and the category. */
  function Request(title: string, category: TaskCategory): (r: Option<NewTask>)
    ensures r.None? <==> IsBlank(title)
    ensures r.Some? ==> r.value.title == Trim(title) && r.value.title != "" && r.value.category == category
  {
    if Trim(title) == "" then None else Some(NewTask(Trim(title), category))
  }

  /** Submitting a title that came out of the form again hands on the same title. */
  lemma RequestIdempotent(title: string, category: TaskCategory)
    requires !IsBlank(title)
    ensures Request(Request(title, category).value.title, category) == Request(title, category)
  {
    TrimIdempotent(title);
  }

  class TaskForm {
    var title: string
    var category: TaskCategory

    constructor ()
      ensures title == "" && category == DefaultCategory
    {
      title, category := "", DefaultCategory;
    }

    method SetTitle(text: string)
      modifies this
      ensures title == text && category == old(category)
    {
      title := text;
    }

    method SetCategory(c: TaskCategory)
      modifies this
      ensures category == c && title == old(title)
    {
      category := c;
    }

    /** `handleSubmit`: report and reset on a non-blank title; otherwise leave the form as it is (and open). */
    method Submit() returns (r: Option<NewTask>)
      modifies this
      ensures r == Request(old(title), old(category))
      ensures r.Some? ==> title == "" && category == DefaultCategory
      ensures r.None? ==> title == old(title) && category == old(category)
    {
      if Trim(title) == "" {
        return None;
      }
      r := Some(NewTask(Trim(title), category));
      title, category := "", DefaultCategory;
    }
  }
}
