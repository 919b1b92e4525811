/**
 * The browser side of frontend/js/app.js: the cached task list that each broadcast
 * event edits in place, the roster of connected users, the view filters, the edit
 * permission and the checks made before a form is sent.
 */
module Client {
  import opened Js
  import opened Wrappers
  import opened Sqlite
  import opened Schema
  import opened Tasks
  import TaskApi
  import Presence
  import AuthApi

  // ---------------------------------------------------------------------------
  // Cached tasks

  /** The fields of a task object the browser reads, as the JSON delivered them. */
  datatype Card = Card(id: Value, title: Value, status: Value, priority: Value, assignedTo: Value, createdBy: Value)

  /** A column value as JSON delivers it. */
  function CellValue(c: Cell): Value {
    match c
    case SNull => Null
    case SInt(i) => Num(i)
    case SText(s) => Str(s)
  }

  /** The task object the server sends for a stored task: its id is a number. */
  function CardOf(d: TaskDetail): Card {
    var row := d.task.row;
    Card(Num(d.task.id), Str(row.title), Str(StatusName(row.status)), Str(PriorityName(row.priority)),
         CellValue(row.assignedTo), CellValue(row.createdBy))
  }

  /** Every cached id is a number, as it is for tasks the server sent. */
  predicate NumericIds(cards: seq<Card>) {
    forall i :: 0 <= i < |cards| ==> cards[i].id.Num?
  }

  /** How a handler compares ids: `===` as written, or `==`. */
  datatype IdCompare = Strict | Loose

  predicate SameId(cmp: IdCompare, a: Value, b: Value) {
    match cmp
    case Strict => StrictEq(a, b)
    case Loose => LooseEq(a, b)
  }

  /** `t => t.id === id` */
  function HasId(cmp: IdCompare, id: Value): Card -> bool {
    (c: Card) => SameId(cmp, c.id, id)
  }

  /** `t => t.id !== id` */
  function LacksId(cmp: IdCompare, id: Value): Card -> bool {
    (c: Card) => !SameId(cmp, c.id, id)
  }

  // ---------------------------------------------------------------------------
  // Array.prototype.filter and findIndex on the cache

  /** `cards.filter(keep)` */
  function Filter(cards: seq<Card>, keep: Card -> bool): (r: seq<Card>)
    ensures |r| <= |cards|
    ensures forall c :: c in r <==> c in cards && keep(c)
    decreases |cards|
  {
    if cards == [] then []
    else (if keep(cards[0]) then [cards[0]] else []) + Filter(cards[1..], keep)
  }

  /** Filtering keeps the order: it distributes over concatenation. */
  lemma {:induction false} FilterAppend(a: seq<Card>, b: seq<Card>, keep: Card -> bool)
    ensures Filter(a + b, keep) == Filter(a, keep) + Filter(b, keep)
    decreases |a|
  {
    if a == [] {
      assert a + b == b;
    } else {
      assert (a + b)[1..] == a[1..] + b;
      FilterAppend(a[1..], b, keep);
    }
  }

  /** A filter every entry passes returns the list unchanged. */
  lemma {:induction false} FilterKeepsAll(cards: seq<Card>, keep: Card -> bool)
    requires forall i :: 0 <= i < |cards| ==> keep(cards[i])
    ensures Filter(cards, keep) == cards
    decreases |cards|
  {
    if cards != [] {
      assert keep(cards[0]);
      FilterKeepsAll(cards[1..], keep);
    }
  }

  /** `cards.findIndex(found)`: the first position whose entry is found, or -1. */
  function FindIndex(cards: seq<Card>, found: Card -> bool): (r: int)
    ensures -1 <= r < |cards|
    ensures r == -1 <==> forall j :: 0 <= j < |cards| ==> !found(cards[j])
    ensures 0 <= r ==> found(cards[r]) && forall j :: 0 <= j < r ==> !found(cards[j])
    decreases |cards|
  {
    if cards == [] then -1
    else if found(cards[0]) then 0
    else
      var k := FindIndex(cards[1..], found);
      if k == -1 then -1 else k + 1
  }

  /** `const index = cards.findIndex(found); if (index !== -1) cards[index] = c;` */
  function Replaced(cards: seq<Card>, found: Card -> bool, c: Card): (r: seq<Card>)
    ensures |r| == |cards|
    ensures (forall j :: 0 <= j < |cards| ==> !found(cards[j])) ==> r == cards
    ensures forall i :: 0 <= i < |cards| && found(cards[i]) && (forall j :: 0 <= j < i ==> !found(cards[j])) ==>
      r == cards[i := c]
  {
    var i := FindIndex(cards, found);
    if i == -1 then cards else cards[i := c]
  }

  // ---------------------------------------------------------------------------
  // The cache and its event handlers

  /** What each broadcast does to the cached list. */
  function Reconciled(cards: seq<Card>, e: TaskApi.Broadcast, cmp: IdCompare): seq<Card> {
    match e
    case TaskCreated(d) => [CardOf(d)] + cards
    case TaskUpdated(d) => Replaced(cards, HasId(cmp, CardOf(d).id), CardOf(d))
    case TaskDeleted(id) => Filter(cards, LacksId(cmp, id))
    case UpdateAdded(taskId, _, d) => Replaced(cards, HasId(cmp, taskId), CardOf(d))
    case TaskAssigned(taskId, _, _, d) => Replaced(cards, HasId(cmp, taskId), CardOf(d))
    case StatusChanged(taskId, _, _, d) => Replaced(cards, HasId(cmp, taskId), CardOf(d))
  }

  /** The `TaskManager` state the socket handlers touch. */
  class TaskManager {
    var tasks: seq<Card>
    var connectedUsers: seq<Presence.Entry>
    var currentUser: Option<AuthApi.UserJson>

    constructor ()
      ensures tasks == [] && connectedUsers == [] && currentUser == None
    {
      tasks, connectedUsers, currentUser := [], [], None;
    }

    /** `handleTaskCreated`: the new task goes to the front; the rest keep their order after it. */
    method HandleTaskCreated(task: Card)
      modifies this
      ensures tasks == [task] + old(tasks)
      ensures connectedUsers == old(connectedUsers) && currentUser == old(currentUser)
    {
      tasks := [task] + tasks;
    }

    /** `handleTaskUpdated`: the first entry with a strictly equal id is replaced. */
    method HandleTaskUpdated(task: Card)
      modifies this
      ensures tasks == Replaced(old(tasks), HasId(Strict, task.id), task)
      ensures connectedUsers == old(connectedUsers) && currentUser == old(currentUser)
    {
      var index := FindIndex(tasks, HasId(Strict, task.id));
      if index != -1 {
        tasks := tasks[index := task];
      }
    }

    /** `handleTaskDeleted`: keeps the entries whose id is not strictly equal to `id`. */
    method HandleTaskDeleted(id: Value)
      modifies this
      ensures tasks == Filter(old(tasks), LacksId(Strict, id))
      ensures connectedUsers == old(connectedUsers) && currentUser == old(currentUser)
    {
      tasks := Filter(tasks, LacksId(Strict, id));
    }

    /**
     * `handleTaskAssigned`: replaces the entry for `taskId`, then tells whether the
     * assignment is for the signed-in user. Without one, reading `currentUser.id`
     * throws after the cache was updated (`None`).
     */
    method HandleTaskAssigned(taskId: Value, assignedTo: Value, task: Card) returns (notify: Option<bool>)
      modifies this
      ensures tasks == Replaced(old(tasks), HasId(Strict, taskId), task)
      ensures connectedUsers == old(connectedUsers) && currentUser == old(currentUser)
      ensures currentUser.None? ==> notify.None?
      ensures currentUser.Some? ==> notify == Some(StrictEq(assignedTo, currentUser.value.id))
    {
      var index := FindIndex(tasks, HasId(Strict, taskId));
      if index != -1 {
        tasks := tasks[index := task];
      }
      if currentUser.None? {
        return None;
      }
      notify := Some(StrictEq(assignedTo, currentUser.value.id));
    }

    /** `handleTaskStatusChanged`: replaces the entry for `taskId`. */
    method HandleTaskStatusChanged(taskId: Value, task: Card)
      modifies this
      ensures tasks == Replaced(old(tasks), HasId(Strict, taskId), task)
      ensures connectedUsers == old(connectedUsers) && currentUser == old(currentUser)
    {
      var index := FindIndex(tasks, HasId(Strict, taskId));
      if index != -1 {
        tasks := tasks[index := task];
      }
    }

    /** `handleTaskUpdateAdded`: replaces the entry for `taskId`. */
    method HandleTaskUpdateAdded(taskId: Value, task: Card)
      modifies this
      ensures tasks == Replaced(old(tasks), HasId(Strict, taskId), task)
      ensures connectedUsers == old(connectedUsers) && currentUser == old(currentUser)
    {
      var index := FindIndex(tasks, HasId(Strict, taskId));
      if index != -1 {
        tasks := tasks[index := task];
      }
    }

    /** `handleUsersUpdated`: the roster the server sent replaces the old one. */
    method HandleUsersUpdated(users: seq<Presence.Entry>)
      modifies this
      ensures connectedUsers == users
      ensures tasks == old(tasks) && currentUser == old(currentUser)
    {
      connectedUsers := users;
    }

    /** The socket listeners: each task event goes to its handler. */
    method Receive(e: TaskApi.Broadcast)
      modifies this
      ensures tasks == Reconciled(old(tasks), e, Strict)
      ensures connectedUsers == old(connectedUsers) && currentUser == old(currentUser)
    {
      match e
      case TaskCreated(d) => HandleTaskCreated(CardOf(d));
      case TaskUpdated(d) => HandleTaskUpdated(CardOf(d));
      case TaskDeleted(id) => HandleTaskDeleted(id);
      case UpdateAdded(taskId, _, d) => HandleTaskUpdateAdded(taskId, CardOf(d));
      case TaskAssigned(taskId, assignedTo, _, d) => var _ := HandleTaskAssigned(taskId, assignedTo, CardOf(d));
      case StatusChanged(taskId, _, _, d) => HandleTaskStatusChanged(taskId, CardOf(d));
    }
  }

  // ---------------------------------------------------------------------------
  // Ids that arrive as path parameters

  /** A numeric id loosely equals a text exactly when the text is a literal of that number. */
  lemma LooseIdMeaning(id: Value, k: int, p: string)
    requires id.Num? && IntegerLiteral(p) == Some(k)
    ensures LooseEq(id, Str(p)) <==> id == Num(k)
    ensures !StrictEq(id, Str(p))
  {
    NumberMeetsLiteral(k, p);
    assert LooseEq(id, Str(p)) == (ToNumber(p) == id);
  }

  /** As written, a delete whose id is the path text removes nothing from a cache of numeric ids. */
  lemma StrictDeleteIgnoresPathId(cards: seq<Card>, p: string)
    requires NumericIds(cards)
    ensures Filter(cards, LacksId(Strict, Str(p))) == cards
  {
    FilterKeepsAll(cards, LacksId(Strict, Str(p)));
  }

  /** Compared loosely, the delete removes exactly the entries with the id the path denotes. */
  lemma LooseDeleteRemovesPathId(cards: seq<Card>, p: string, k: int)
    requires NumericIds(cards) && IntegerLiteral(p) == Some(k)
    ensures forall c :: c in Filter(cards, LacksId(Loose, Str(p))) <==> c in cards && c.id != Num(k)
  {
    forall c | c in cards
      ensures LacksId(Loose, Str(p))(c) <==> c.id != Num(k)
    {
      var i :| 0 <= i < |cards| && cards[i] == c;
      LooseIdMeaning(c.id, k, p);
    }
  }

  /** As written, an event whose `taskId` is the path text replaces nothing in a cache of numeric ids. */
  lemma StrictLookupIgnoresPathId(cards: seq<Card>, p: string, c: Card)
    requires NumericIds(cards)
    ensures FindIndex(cards, HasId(Strict, Str(p))) == -1
    ensures Replaced(cards, HasId(Strict, Str(p)), c) == cards
  {
  }

  /** Compared loosely, the event replaces the first entry with the id the path denotes. */
  lemma LooseLookupFindsPathId(cards: seq<Card>, p: string, k: int, c: Card, i: nat)
    requires NumericIds(cards) && IntegerLiteral(p) == Some(k)
    requires i < |cards| && cards[i].id == Num(k) && forall j :: 0 <= j < i ==> cards[j].id != Num(k)
    ensures FindIndex(cards, HasId(Loose, Str(p))) == i
    ensures Replaced(cards, HasId(Loose, Str(p)), c) == cards[i := c]
  {
    forall j | 0 <= j <= i
      ensures HasId(Loose, Str(p))(cards[j]) <==> cards[j].id == Num(k)
    {
      LooseIdMeaning(cards[j].id, k, p);
    }
  }

  /** A concrete cache: task 5 stays after `task:deleted` with `{ id: "5" }`, and is dropped when compared loosely. */
  lemma DeletedTaskLingers(c: Card)
    requires c.id == Num(5)
    ensures Reconciled([c], TaskApi.TaskDeleted(Str("5")), Strict) == [c]
    ensures Reconciled([c], TaskApi.TaskDeleted(Str("5")), Loose) == []
  {
    StrictDeleteIgnoresPathId([c], "5");
    LooseDeleteRemovesPathId([c], "5", 5);
  }

  /** Every event other than a creation or a deletion keeps the length of the list. */
  lemma ReconciledKeepsLength(cards: seq<Card>, e: TaskApi.Broadcast, cmp: IdCompare)
    requires !e.TaskCreated? && !e.TaskDeleted?
    ensures |Reconciled(cards, e, cmp)| == |cards|
  {
  }

  // ---------------------------------------------------------------------------
  // View filters and permission

  /** The filter of `applyCurrentFilters` for the three select values (`undefined` when absent). */
  function Passes(status: Value, priority: Value, assignedTo: Value): Card -> bool {
    (c: Card) => !(Truthy(status) && !StrictEq(c.status, status)) &&
         !(Truthy(priority) && !StrictEq(c.priority, priority)) &&
         !(Truthy(assignedTo) && !LooseEq(c.assignedTo, assignedTo))
  }

  /** `applyCurrentFilters`: a task is shown iff it matches every non-empty filter; the assignee compares loosely. */
  function ApplyCurrentFilters(cards: seq<Card>, status: Value, priority: Value, assignedTo: Value): (r: seq<Card>)
    ensures forall c :: c in r <==>
      c in cards &&
      (Truthy(status) ==> c.status == status) &&
      (Truthy(priority) ==> c.priority == priority) &&
      (Truthy(assignedTo) ==> LooseEq(c.assignedTo, assignedTo))
  {
    Filter(cards, Passes(status, priority, assignedTo))
  }

  /** With every select cleared, the full list is shown in its order. */
  lemma ClearedFiltersShowAll(cards: seq<Card>)
    ensures ApplyCurrentFilters(cards, Str(""), Str(""), Str("")) == cards
  {
    FilterKeepsAll(cards, Passes(Str(""), Str(""), Str("")));
  }

  /**
   * Choosing an assignee in the select (whose value is the id's text) shows exactly the
   * tasks assigned to that number, although `===` would show none.
   */
  lemma AssigneeFilterIsLoose(c: Card, p: string, k: int)
    requires IntegerLiteral(p) == Some(k) && (c.assignedTo.Num? || c.assignedTo == Null)
    ensures Passes(Str(""), Str(""), Str(p))(c) <==> c.assignedTo == Num(k)
    ensures !StrictEq(c.assignedTo, Str(p))
  {
    if c.assignedTo.Num? {
      LooseIdMeaning(c.assignedTo, k, p);
    } else {
      assert p != [] by { assert IntegerLiteral([]) == None; }
    }
  }

  /** `renderMyTasks`: the tasks strictly assigned to the signed-in user. */
  function MyTasks(cards: seq<Card>, user: AuthApi.UserJson): (r: seq<Card>)
    ensures forall c :: c in r <==> c in cards && c.assignedTo == user.id && user.id != NaN
  {
    Filter(cards, (c: Card) => StrictEq(c.assignedTo, user.id))
  }

  /** `canEditTask` */
  predicate CanEditTask(user: AuthApi.UserJson, c: Card) {
    StrictEq(user.role, Str("admin")) || StrictEq(c.createdBy, user.id) || StrictEq(c.assignedTo, user.id)
  }

  /** Every task in "my tasks" offers the edit button. */
  lemma MyTasksEditable(cards: seq<Card>, user: AuthApi.UserJson)
    ensures forall c :: c in MyTasks(cards, user) ==> CanEditTask(user, c)
  {
  }

  /** An admin may edit every task; anyone else only those they created or are assigned. */
  lemma CanEditMeaning(user: AuthApi.UserJson, c: Card)
    ensures user.role == Str("admin") ==> CanEditTask(user, c)
    ensures user.role != Str("admin") ==>
      (CanEditTask(user, c) <==> user.id != NaN && (c.createdBy == user.id || c.assignedTo == user.id))
  {
  }

  /** The signed-in user may edit a stored task they created. */
  lemma CreatorCanEdit(user: AuthApi.UserJson, d: TaskDetail, k: int)
    requires d.task.row.createdBy == SInt(k) && user.id == Num(k)
    ensures CanEditTask(user, CardOf(d))
  {
  }

  // ---------------------------------------------------------------------------
  // Checks before a form is sent

  /** `handleLogin`: the trimmed name, or no request when it is empty. */
  function LoginRequest(nameField: string): (name: Option<string>)
    ensures name.None? <==> forall i :: 0 <= i < |nameField| ==> IsSpace(nameField[i])
    ensures name.Some? ==> name.value == Trim(nameField) && Truthy(Str(name.value))
  {
    TrimEmpty(nameField);
    var name := Trim(nameField);
    if name == [] then None else Some(name)
  }

  /**
   * `handleCreateTask`: the body sent for the form fields, or no request when the
   * trimmed title is empty. Empty assignee and due date become `null`.
   */
  function CreateTaskRequest(title: string, description: string, priority: string, assignedTo: string, dueDate: string)
    : (r: Option<TaskBody>)
    ensures r.None? <==> forall i :: 0 <= i < |title| ==> IsSpace(title[i])
    ensures r.Some? ==>
      Truthy(r.value.title) && r.value.title == Str(Trim(title)) &&
      (assignedTo == [] <==> r.value.assignedTo == Null) &&
      (dueDate == [] <==> r.value.dueDate == Null) &&
      r.value.status == Undefined && r.value.progressState == Undefined
  {
    TrimEmpty(title);
    var t := Trim(title);
    if t == [] then None
    else Some(TaskForm(t, Trim(description), priority, assignedTo, dueDate))
  }

  /** `taskData` built from the already trimmed title and description. */
  function TaskForm(title: string, description: string, priority: string, assignedTo: string, dueDate: string): TaskBody {
    TaskBody(Str(title), Str(description), Undefined, Str(priority), OrNull(assignedTo), OrNull(dueDate), Undefined, Undefined)
  }

  /** `field.value || null` */
  function OrNull(field: string): (v: Value)
    ensures field == [] ==> v == Null
    ensures field != [] ==> v == Str(field)
  {
    Or(Str(field), Null)
  }

  /** The body `{ comment, progress }` of a progress update. */
  datatype UpdateForm = UpdateForm(comment: string, progress: Value)

  /**
   * `handleAddUpdate`: no request when the trimmed comment is empty and the progress
   * field reads as 0 (`parseInt(...) || 0`, so unreadable text counts as 0).
   */
  function AddUpdateRequest(commentField: string, progressField: string): (r: Option<UpdateForm>)
    ensures r.None? <==>
      (forall i :: 0 <= i < |commentField| ==> IsSpace(commentField[i])) &&
      (ParseInt(progressField) == NaN || ParseInt(progressField) == Num(0))
    ensures r.Some? ==> r.value.comment == Trim(commentField) && r.value.progress.Num?
  {
    TrimEmpty(commentField);
    var comment := Trim(commentField);
    var parsed := ParseInt(progressField);
    var progress := Or(parsed, Num(0));
    assert progress.Num? by {
      if !Truthy(parsed) {
        assert progress == Num(0);
      } else {
        assert progress == parsed;
      }
    }
    if comment == [] && StrictEq(progress, Num(0)) then None
    else Some(UpdateForm(comment, progress))
  }

  /** `handleCreateUser`: no request when the trimmed name or the role is empty. */
  function CreateUserRequest(nameField: string, role: string): (r: Option<(string, string)>)
    ensures r.None? <==> role == [] || forall i :: 0 <= i < |nameField| ==> IsSpace(nameField[i])
    ensures r.Some? ==> r.value == (Trim(nameField), role) && Truthy(Str(r.value.0)) && Truthy(Str(r.value.1))
  {
    TrimEmpty(nameField);
    var name := Trim(nameField);
    if name == [] || role == [] then None else Some((name, role))
  }
}
