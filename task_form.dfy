/** The add/edit task form: a form record rewritten by field setters, a submit
    that validates and then hands the fields to the add or the edit callback,
    a cancel, and the load of the task being edited. */
module TaskForm {
  import opened TaskTypes
  import opened JsRuntime

  /** `TaskFormData`. The deadline is a `Date`, kept as its time value. */
  datatype FormData = FormData(
    title: string,
    description: string,
    priority: Priority,
    labelText: string,
    deadline: int,
    completed: bool)

  /** The empty form; `now` is the clock reading of `new Date()`. */
  function DefaultForm(now: int): (d: FormData)
    ensures d.title == "" && d.description == "" && d.labelText == ""
    ensures d.priority == Medium && !d.completed && d.deadline == now
  {
    FormData("", "", Medium, "", now, false)
  }

  /** The form filled from a task; `new Date(s)` is the host's date parser. */
  function FormOf(t: Task, host: Host): (d: FormData)
    ensures d.title == t.title && d.description == t.description && d.labelText == t.labelText
    ensures d.priority == t.priority && d.completed == t.completed
    ensures d.deadline == host.parseDate(t.deadline)
  {
    FormData(t.title, t.description, t.priority, t.labelText, host.parseDate(t.deadline), t.completed)
  }

  /** The text inputs that call `handleInputChange`. */
  datatype TextField = TitleField | DescriptionField | LabelField

  /** The field a rejected submit complains about. */
  datatype RequiredField = TitleRequired | DescriptionRequired

  /** The task data passed to `onAddTask`/`onEditTask`, with the deadline as
      an ISO string. */
  datatype TaskInput = TaskInput(
    title: string,
    description: string,
    priority: Priority,
    labelText: string,
    deadline: string,
    completed: bool)

  /** The callbacks the form calls, in the order it calls them. */
  datatype Callback = OnAddTask(input: TaskInput) | OnEditTask(id: string, input: TaskInput) | OnClose

  /** `!s.trim()`: nothing but white space. */
  predicate IsBlank(s: string): (b: bool)
    ensures b <==> forall i :: 0 <= i < |s| ==> IsWhiteSpace(s[i])
  {
    TrimEmptyIffAllWhiteSpace(s);
    Trim(s) == []
  }

  /** The validation of `handleSubmit`: the title is checked first, then the
      description; no complaint exactly when neither is blank. */
  function MissingField(d: FormData): (m: Option<RequiredField>)
    ensures m == None <==> !IsBlank(d.title) && !IsBlank(d.description)
    ensures m == Some(TitleRequired) <==> IsBlank(d.title)
    ensures m == Some(DescriptionRequired) <==> !IsBlank(d.title) && IsBlank(d.description)
  {
    if IsBlank(d.title) then Some(TitleRequired)
    else if IsBlank(d.description) then Some(DescriptionRequired)
    else None
  }

  /** The empty form cannot be submitted: its title is blank. */
  lemma DefaultFormRejected(now: int)
    ensures MissingField(DefaultForm(now)) == Some(TitleRequired)
  {
    assert IsBlank("");
  }

  /** The submitted fields, untrimmed; only the deadline is converted. */
  function Submitted(d: FormData, host: Host): (input: TaskInput)
    ensures input.title == d.title && input.description == d.description && input.labelText == d.labelText
    ensures input.priority == d.priority && input.completed == d.completed
    ensures input.deadline == host.toISOString(d.deadline)
  {
    TaskInput(d.title, d.description, d.priority, d.labelText, host.toISOString(d.deadline), d.completed)
  }

  /** The component: its `taskToEdit` prop and its two pieces of state. */
  class TaskFormView {
    var taskToEdit: Option<Task>
    var formData: FormData
    var showDatePicker: bool

    /** The initial state of the two `useState` hooks. */
    constructor(taskToEdit: Option<Task>, now: int)
      ensures this.taskToEdit == taskToEdit
      ensures formData == DefaultForm(now) && !showDatePicker
    {
      this.taskToEdit := taskToEdit;
      formData := DefaultForm(now);
      showDatePicker := false;
    }

    /** `isEditMode`. */
    predicate IsEditMode()
      reads this
    {
      taskToEdit.Some?
    }

    /** The effect on `taskToEdit`: a task is copied into the form, no task
      resets the form to its defaults. */
    method LoadTaskToEdit(t: Option<Task>, now: int, host: Host)
      modifies this
      ensures taskToEdit == t && showDatePicker == old(showDatePicker)
      ensures t.Some? ==>
        && formData.title == t.value.title
        && formData.description == t.value.description
        && formData.priority == t.value.priority
        && formData.labelText == t.value.labelText
        && formData.deadline == host.parseDate(t.value.deadline)
        && formData.completed == t.value.completed
      ensures t.None? ==> formData == DefaultForm(now)
    {
      taskToEdit := t;
      if t.Some? {
        formData := FormOf(t.value, host);
      } else {
        formData := DefaultForm(now);
      }
    }

    /** `handleInputChange`: one text field takes the new value, nothing else changes. */
    method HandleInputChange(field: TextField, value: string)
      modifies this
      ensures taskToEdit == old(taskToEdit) && showDatePicker == old(showDatePicker)
      ensures formData == match field
        case TitleField => old(formData).(title := value)
        case DescriptionField => old(formData).(description := value)
        case LabelField => old(formData).(labelText := value)
    {
      match field {
        case TitleField => formData := formData.(title := value);
        case DescriptionField => formData := formData.(description := value);
        case LabelField => formData := formData.(labelText := value);
      }
    }

    /** `handlePriorityChange`. */
    method HandlePriorityChange(priority: Priority)
      modifies this
      ensures taskToEdit == old(taskToEdit) && showDatePicker == old(showDatePicker)
      ensures formData == old(formData).(priority := priority)
    {
      formData := formData.(priority := priority);
    }

    /** `handleCompletedChange`. */
    method HandleCompletedChange(completed: bool)
      modifies this
      ensures taskToEdit == old(taskToEdit) && showDatePicker == old(showDatePicker)
      ensures formData == old(formData).(completed := completed)
    {
      formData := formData.(completed := completed);
    }

    /** Pressing the deadline button opens the date picker. */
    method OpenDatePicker()
      modifies this
      ensures taskToEdit == old(taskToEdit) && formData == old(formData)
      ensures showDatePicker
    {
      showDatePicker := true;
    }

    /** `handleDateChange`: the picker stays open only on iOS; a picked date
      replaces the deadline, a dismissed picker leaves it. */
    method HandleDateChange(isIOS: bool, selectedDate: Option<int>)
      modifies this
      ensures taskToEdit == old(taskToEdit)
      ensures showDatePicker == isIOS
      ensures selectedDate.Some? ==> formData == old(formData).(deadline := selectedDate.value)
      ensures selectedDate.None? ==> formData == old(formData)
    {
      showDatePicker := isIOS;
      if selectedDate.Some? {
        formData := formData.(deadline := selectedDate.value);
      }
    }

    /** `handleSubmit`. A blank title, then a blank description, is rejected
      with its complaint and calls nothing and changes nothing. Otherwise the
      untrimmed fields go to `onEditTask` with the edited task's id, or to
      `onAddTask` without one; the form resets to its defaults and closes. */
    method HandleSubmit(now: int, host: Host) returns (complaint: Option<RequiredField>, calls: seq<Callback>)
      modifies this
      ensures taskToEdit == old(taskToEdit) && showDatePicker == old(showDatePicker)
      ensures complaint == MissingField(old(formData))
      ensures complaint.Some? ==> calls == [] && formData == old(formData)
      ensures complaint.None? ==> formData == DefaultForm(now)
      ensures complaint.None? && taskToEdit.Some? ==>
        calls == [OnEditTask(taskToEdit.value.id, Submitted(old(formData), host)), OnClose]
      ensures complaint.None? && taskToEdit.None? ==>
        calls == [OnAddTask(Submitted(old(formData), host)), OnClose]
    {
      complaint := MissingField(formData);
      if complaint.Some? {
        calls := [];
      } else {
        var input := Submitted(formData, host);
        if IsEditMode() && taskToEdit.Some? {
          calls := [OnEditTask(taskToEdit.value.id, input)];
        } else {
          calls := [OnAddTask(input)];
        }
        formData := DefaultForm(now);
        calls := calls + [OnClose];
      }
    }

    /** `handleCancel`: whatever the form holds, it resets to its defaults and closes. */
    method HandleCancel(now: int) returns (calls: seq<Callback>)
      modifies this
      ensures taskToEdit == old(taskToEdit) && showDatePicker == old(showDatePicker)
      ensures formData == DefaultForm(now)
      ensures calls == [OnClose]
    {
      formData := DefaultForm(now);
      calls := [OnClose];
    }
  }

  /** Editing a task: the effect loads it, and submitting the form unchanged
    sends the task's own id and fields, with the deadline parsed and
    formatted again, then closes the form. */
  method ResubmitLoadedTask(t: Task, now: int, host: Host) returns (calls: seq<Callback>)
    requires !IsBlank(t.title) && !IsBlank(t.description)
    ensures calls == [OnEditTask(t.id, TaskInput(t.title, t.description, t.priority, t.labelText,
                                                 host.toISOString(host.parseDate(t.deadline)), t.completed)),
                      OnClose]
  {
    var form := new TaskFormView(Some(t), now);
    form.LoadTaskToEdit(Some(t), now, host);
    var complaint;
    complaint, calls := form.HandleSubmit(now, host);
  }
}
