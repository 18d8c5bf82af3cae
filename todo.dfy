/** The task list of src/pages/TodoPage.jsx: create, edit in place, toggle,
    delete, and the form state around them. */
module Todos {
  import opened Base
  import Seqs

  /** A task as the server returns it. `dateTime` is held already in the form's
      `YYYY-MM-DDTHH:mm` shape; the date conversion itself is not modelled. */
  datatype Todo = Todo(id: string, title: string, description: Option<string>,
                       dateTime: Option<string>, completed: bool)

  /** The task form's fields. */
  datatype TodoForm = TodoForm(title: string, description: string, dateTime: string)

  const EmptyForm := TodoForm("", "", "")

  /** A request sent to the task service. */
  datatype TodoRequest =
    | CreateTodo(form: TodoForm)
    | UpdateTodo(id: string, form: TodoForm)
    | ToggleTodo(id: string, completed: bool)
    | DeleteTodo(id: string)

  function IdOf(t: Todo): string { t.id }

  /** `todos.map(t => t._id === id ? updated : t)`. */
  function ReplaceById(todos: seq<Todo>, id: string, updated: Todo): (r: seq<Todo>)
    ensures |r| == |todos|
    ensures forall i :: 0 <= i < |todos| && todos[i].id == id ==> r[i] == updated
    ensures forall i :: 0 <= i < |todos| && todos[i].id != id ==> r[i] == todos[i]
  {
    Seqs.ReplaceKey(todos, IdOf, id, updated)
  }

  /** `todos.filter(t => t._id !== id)`. */
  function RemoveById(todos: seq<Todo>, id: string): (r: seq<Todo>)
    ensures forall i :: 0 <= i < |r| ==> r[i].id != id
    ensures forall i :: 0 <= i < |todos| && todos[i].id != id ==> todos[i] in r
    ensures Seqs.IsSubseq(r, todos)
    ensures forall t :: multiset(r)[t] == if t.id != id then multiset(todos)[t] else 0
  {
    Seqs.RemoveKey(todos, IdOf, id)
  }

  /** Deleting a task just created (with an id not yet in the list) restores the list. */
  lemma DeleteUndoesCreate(t: Todo, todos: seq<Todo>)
    requires forall i :: 0 <= i < |todos| ==> todos[i].id != t.id
    ensures RemoveById([t] + todos, t.id) == todos
  {
    Seqs.RemoveKeyUndoesPrepend(t, todos, IdOf);
  }

  /** Editing a task and then deleting it leaves the same list as deleting it outright. */
  lemma DeleteAfterEdit(todos: seq<Todo>, updated: Todo)
    ensures RemoveById(ReplaceById(todos, updated.id, updated), updated.id) == RemoveById(todos, updated.id)
  {
    Seqs.RemoveKeyAfterReplace(todos, IdOf, updated.id, updated);
  }

  /** The submit guard: a title and a date are both required. */
  predicate CanSubmit(f: TodoForm) {
    f.title != "" && f.dateTime != ""
  }

  /** The form as `handleEdit` fills it from a task. */
  function EditForm(t: Todo): (f: TodoForm)
    ensures f.title == t.title
    ensures f.description == (if t.description.Some? then t.description.value else "")
    ensures f.dateTime == (if Truthy(t.dateTime) then t.dateTime.value else "")
  {
    TodoForm(t.title, t.description.GetOr(""), if Truthy(t.dateTime) then t.dateTime.value else "")
  }

  /** Editing a complete task yields a form that passes the submit guard. */
  lemma EditFormSubmittable(t: Todo)
    requires t.title != "" && Truthy(t.dateTime)
    ensures CanSubmit(EditForm(t))
  {
  }

  class TodoPage {
    var todos: seq<Todo>
    var formData: TodoForm
    var editingId: Option<string>
    var showForm: bool
    var submitting: bool
    var error: string
    /** Requests sent to the task service, oldest first. */
    var requests: seq<TodoRequest>

    constructor (loaded: seq<Todo>)
      ensures todos == loaded && formData == EmptyForm && editingId == None
      ensures !showForm && !submitting && error == "" && requests == []
    {
      todos := loaded;
      formData := EmptyForm;
      editingId := None;
      showForm := false;
      submitting := false;
      error := "";
      requests := [];
    }

    /** `resetForm()`. */
    method ResetForm()
      modifies this
      ensures formData == EmptyForm && editingId == None && !showForm
      ensures todos == old(todos) && requests == old(requests) && error == old(error)
      ensures submitting == old(submitting)
    {
      formData := EmptyForm;
      editingId := None;
      showForm := false;
    }

    /** `handleEdit(todo)`: loads the task into the form and opens it in edit mode. */
    method HandleEdit(t: Todo)
      modifies this
      ensures formData == EditForm(t) && editingId == Some(t.id) && showForm
      ensures todos == old(todos) && requests == old(requests) && error == old(error)
      ensures submitting == old(submitting)
    {
      formData := EditForm(t);
      editingId := Some(t.id);
      showForm := true;
    }

    /** `handleSubmit(e)`: in edit mode the task with `editingId` is replaced in place,
        otherwise the created task is prepended; success resets the form, failure
        keeps it and shows the message. `outcome` is the service's reply. */
    method HandleSubmit(outcome: Result<Todo>)
      modifies this
      ensures !CanSubmit(old(formData)) ==>
                todos == old(todos) && formData == old(formData) && editingId == old(editingId)
                && requests == old(requests) && error == old(error) && submitting == old(submitting)
                && showForm == old(showForm)
      ensures CanSubmit(old(formData)) ==>
                !submitting
                && requests == old(requests) + [if Truthy(old(editingId)) then UpdateTodo(old(editingId).value, old(formData))
                                                else CreateTodo(old(formData))]
      ensures CanSubmit(old(formData)) && outcome.Ok? ==>
                && todos == (if Truthy(old(editingId)) then ReplaceById(old(todos), old(editingId).value, outcome.value)
                             else [outcome.value] + old(todos))
                && formData == EmptyForm && editingId == None && !showForm && error == ""
      ensures CanSubmit(old(formData)) && outcome.Err? ==>
                && todos == old(todos) && formData == old(formData) && editingId == old(editingId)
                && showForm == old(showForm) && error == outcome.msg
    {
      if formData.title == "" || formData.dateTime == "" {
        return;
      }
      submitting := true;
      error := "";
      if editingId.Some? && editingId.value != "" {
        requests := requests + [UpdateTodo(editingId.value, formData)];
        if outcome.Ok? {
          todos := ReplaceById(todos, editingId.value, outcome.value);
        }
      } else {
        requests := requests + [CreateTodo(formData)];
        if outcome.Ok? {
          todos := [outcome.value] + todos;
        }
      }
      match outcome {
        case Ok(_) => ResetForm();
        case Err(msg) => error := msg;
      }
      submitting := false;
    }

    /** `handleToggleComplete(id, completed)`: asks for the negated flag and replaces
        only the task with that id by the reply. */
    method HandleToggleComplete(id: string, completed: bool, outcome: Result<Todo>)
      modifies this
      ensures requests == old(requests) + [ToggleTodo(id, !completed)]
      ensures outcome.Ok? ==> todos == ReplaceById(old(todos), id, outcome.value) && error == old(error)
      ensures outcome.Err? ==> todos == old(todos) && error == "Failed to update task"
      ensures formData == old(formData) && editingId == old(editingId) && showForm == old(showForm)
      ensures submitting == old(submitting)
    {
      requests := requests + [ToggleTodo(id, !completed)];
      if outcome.Ok? {
        todos := ReplaceById(todos, id, outcome.value);
      } else {
        error := "Failed to update task";
      }
    }

    /** `handleDelete(id)`: nothing unless confirmed; then every task with that id goes. */
    method HandleDelete(id: string, confirmed: bool, outcome: Result<()>)
      modifies this
      ensures !confirmed ==> todos == old(todos) && requests == old(requests) && error == old(error)
      ensures confirmed ==> requests == old(requests) + [DeleteTodo(id)]
      ensures confirmed && outcome.Ok? ==> todos == RemoveById(old(todos), id) && error == old(error)
      ensures confirmed && outcome.Err? ==> todos == old(todos) && error == "Failed to delete task"
      ensures formData == old(formData) && editingId == old(editingId) && showForm == old(showForm)
      ensures submitting == old(submitting)
    {
      if !confirmed {
        return;
      }
      requests := requests + [DeleteTodo(id)];
      if outcome.Ok? {
        todos := RemoveById(todos, id);
      } else {
        error := "Failed to delete task";
      }
    }
  }
}
