/**
 * Which error messages of the models contain the substrings the route handlers test for
 * ("not found", "already exists", "assigned tasks"). The pieces are cleared a few at a time,
 * in lemmas named after the words they clear, so that each proof stays small.
 */
module Messages {
  import opened Text

  /** No copy of `t` starts inside any piece of `ps`. */
  predicate Clean(ps: seq<string>, t: string) {
    forall p :: p in ps ==> NoOverhang(p, t, 0)
  }

  lemma CleanExcludes(ps: seq<string>, t: string)
    requires |t| > 0 && Clean(ps, t)
    ensures !Includes(Concat(ps), t)
  {
    forall i | 0 <= i < |ps| ensures NoOverhang(ps[i], t, 0) {
      assert ps[i] in ps;
    }
    NotIncludesPieces(ps, t);
  }

  lemma CleanAppend(a: seq<string>, b: seq<string>, t: string)
    requires Clean(a, t) && Clean(b, t)
    ensures Clean(a + b, t)
  {
  }

  /** A prefixed message built from clean pieces does not contain `t`. */
  lemma WrapExcludes(prefix: seq<string>, ps: seq<string>, t: string)
    requires |t| > 0 && Clean(prefix, t) && Clean(ps, t)
    ensures !Includes(Wrap(prefix, Concat(ps)), t)
  {
    ConcatAppend(prefix, ps);
    forall p | p in prefix + ps ensures NoOverhang(p, t, 0) {
      assert p in prefix || p in ps;
    }
    CleanExcludes(prefix + ps, t);
  }

  /** A prefixed message one of whose pieces is `t` contains `t`. */
  lemma WrapIncludes(prefix: seq<string>, ps: seq<string>, k: nat, t: string)
    requires k < |ps| && ps[k] == t
    ensures Includes(Wrap(prefix, Concat(ps)), t)
  {
    IncludesPiece(ps, k, t);
    IncludesConcatRight(Concat(prefix), Concat(ps), t);
  }

  /** No piece of the prefixes the models put in front of their messages can start a copy of "not found". */
  lemma PrefixAvoidsNotFound()
    ensures NoOverhang("Error ", "not found", 0)
    ensures NoOverhang("fetching ", "not found", 0)
    ensures NoOverhang("creating ", "not found", 0)
    ensures NoOverhang("updating ", "not found", 0)
    ensures NoOverhang("deleting ", "not found", 0)
    ensures NoOverhang("adding ", "not found", 0)
    ensures NoOverhang("task: ", "not found", 0)
    ensures NoOverhang("update: ", "not found", 0)
    ensures NoOverhang("user: ", "not found", 0)
  {
    ErrorFetchCreateUpdateAvoidNotFound();
    DeletingAddingTaskAvoidNotFound();
    UpdateUserNounsAvoidNotFound();
  }

  lemma ErrorFetchCreateUpdateAvoidNotFound()
    ensures NoOverhang("Error ", "not found", 0)
    ensures NoOverhang("fetching ", "not found", 0)
    ensures NoOverhang("creating ", "not found", 0)
    ensures NoOverhang("updating ", "not found", 0)
  {
  }

  lemma DeletingAddingTaskAvoidNotFound()
    ensures NoOverhang("deleting ", "not found", 0)
    ensures NoOverhang("adding ", "not found", 0)
    ensures NoOverhang("task: ", "not found", 0)
  {
  }

  lemma UpdateUserNounsAvoidNotFound()
    ensures NoOverhang("update: ", "not found", 0)
    ensures NoOverhang("user: ", "not found", 0)
  {
  }

  /** No piece of the task model's own messages can start a copy of "not found". */
  lemma TaskAvoidsNotFound()
    ensures NoOverhang("Title ", "not found", 0)
    ensures NoOverhang("is ", "not found", 0)
    ensures NoOverhang("required", "not found", 0)
    ensures NoOverhang("Priority ", "not found", 0)
    ensures NoOverhang("must ", "not found", 0)
    ensures NoOverhang("be ", "not found", 0)
    ensures NoOverhang("baja, ", "not found", 0)
    ensures NoOverhang("media, ", "not found", 0)
    ensures NoOverhang("or ", "not found", 0)
    ensures NoOverhang("alta", "not found", 0)
    ensures NoOverhang("Status ", "not found", 0)
    ensures NoOverhang("activo, ", "not found", 0)
    ensures NoOverhang("inactivo, ", "not found", 0)
    ensures NoOverhang("finalizado", "not found", 0)
    ensures NoOverhang("Progress ", "not found", 0)
    ensures NoOverhang("state ", "not found", 0)
    ensures NoOverhang("inicial", "not found", 0)
    ensures NoOverhang("izado, ", "not found", 0)
    ensures NoOverhang("en ", "not found", 0)
    ensures NoOverhang("proceso, ", "not found", 0)
    ensures NoOverhang("No ", "not found", 0)
    ensures NoOverhang("fields ", "not found", 0)
    ensures NoOverhang("to ", "not found", 0)
    ensures NoOverhang("update", "not found", 0)
    ensures NoOverhang("Comment ", "not found", 0)
    ensures NoOverhang("progress ", "not found", 0)
  {
    TitlePriorityWordsAvoidNotFound();
    PriorityStatusWordsAvoidNotFound();
    ProgressWordsAvoidNotFound();
    NoFieldsCommentWordsAvoidNotFound();
  }

  lemma TitlePriorityWordsAvoidNotFound()
    ensures NoOverhang("Title ", "not found", 0)
    ensures NoOverhang("is ", "not found", 0)
    ensures NoOverhang("required", "not found", 0)
    ensures NoOverhang("Priority ", "not found", 0)
    ensures NoOverhang("must ", "not found", 0)
    ensures NoOverhang("be ", "not found", 0)
    ensures NoOverhang("baja, ", "not found", 0)
  {
  }

  lemma PriorityStatusWordsAvoidNotFound()
    ensures NoOverhang("media, ", "not found", 0)
    ensures NoOverhang("or ", "not found", 0)
    ensures NoOverhang("alta", "not found", 0)
    ensures NoOverhang("Status ", "not found", 0)
    ensures NoOverhang("activo, ", "not found", 0)
    ensures NoOverhang("inactivo, ", "not found", 0)
    ensures NoOverhang("finalizado", "not found", 0)
  {
  }

  lemma ProgressWordsAvoidNotFound()
    ensures NoOverhang("Progress ", "not found", 0)
    ensures NoOverhang("state ", "not found", 0)
    ensures NoOverhang("inicial", "not found", 0)
    ensures NoOverhang("izado, ", "not found", 0)
    ensures NoOverhang("en ", "not found", 0)
    ensures NoOverhang("proceso, ", "not found", 0)
    ensures NoOverhang("No ", "not found", 0)
  {
  }

  lemma NoFieldsCommentWordsAvoidNotFound()
    ensures NoOverhang("fields ", "not found", 0)
    ensures NoOverhang("to ", "not found", 0)
    ensures NoOverhang("update", "not found", 0)
    ensures NoOverhang("Comment ", "not found", 0)
    ensures NoOverhang("progress ", "not found", 0)
  {
  }

  /** No piece of the SQLite driver's constraint messages can start a copy of "not found". */
  lemma DriverAvoidsNotFound()
    ensures NoOverhang("SQLITE_", "not found", 0)
    ensures NoOverhang("CONSTRAINT: ", "not found", 0)
    ensures NoOverhang("NOT NULL ", "not found", 0)
    ensures NoOverhang("CHECK ", "not found", 0)
    ensures NoOverhang("UNIQUE ", "not found", 0)
    ensures NoOverhang("constraint ", "not found", 0)
    ensures NoOverhang("failed: ", "not found", 0)
    ensures NoOverhang("tasks.", "not found", 0)
    ensures NoOverhang("title", "not found", 0)
    ensures NoOverhang("status", "not found", 0)
    ensures NoOverhang("priority", "not found", 0)
    ensures NoOverhang("progress_state", "not found", 0)
    ensures NoOverhang("created_by", "not found", 0)
    ensures NoOverhang("updates.", "not found", 0)
    ensures NoOverhang("user_id", "not found", 0)
    ensures NoOverhang("users.", "not found", 0)
    ensures NoOverhang("name", "not found", 0)
    ensures NoOverhang("role", "not found", 0)
  {
    SqliteKindsAvoidNotFound();
    ConstraintFailedTasksAvoidNotFound();
    ColumnNamesAvoidNotFound();
    UserColumnsAvoidNotFound();
    ConstraintCodeAvoidsNotFound();
    ProgressStateColumnAvoidsNotFound();
  }

  lemma SqliteKindsAvoidNotFound()
    ensures NoOverhang("SQLITE_", "not found", 0)
    ensures NoOverhang("NOT NULL ", "not found", 0)
    ensures NoOverhang("CHECK ", "not found", 0)
    ensures NoOverhang("UNIQUE ", "not found", 0)
  {
  }

  lemma ConstraintFailedTasksAvoidNotFound()
    ensures NoOverhang("constraint ", "not found", 0)
    ensures NoOverhang("failed: ", "not found", 0)
    ensures NoOverhang("tasks.", "not found", 0)
  {
  }

  lemma ColumnNamesAvoidNotFound()
    ensures NoOverhang("title", "not found", 0)
    ensures NoOverhang("status", "not found", 0)
    ensures NoOverhang("priority", "not found", 0)
    ensures NoOverhang("created_by", "not found", 0)
    ensures NoOverhang("updates.", "not found", 0)
    ensures NoOverhang("user_id", "not found", 0)
    ensures NoOverhang("users.", "not found", 0)
  {
  }

  lemma UserColumnsAvoidNotFound()
    ensures NoOverhang("name", "not found", 0)
    ensures NoOverhang("role", "not found", 0)
  {
  }

  lemma ConstraintCodeAvoidsNotFound()
    ensures NoOverhang("CONSTRAINT: ", "not found", 0)
  {
    assert NoOverhang("CONSTRAINT: ", "not found", 9);
    assert NoOverhang("CONSTRAINT: ", "not found", 6);
    assert NoOverhang("CONSTRAINT: ", "not found", 3);
  }

  lemma ProgressStateColumnAvoidsNotFound()
    ensures NoOverhang("progress_state", "not found", 0)
  {
    assert NoOverhang("progress_state", "not found", 11);
    assert NoOverhang("progress_state", "not found", 8);
    assert NoOverhang("progress_state", "not found", 5);
    assert NoOverhang("progress_state", "not found", 2);
  }

  /** No piece of the schema's CHECK expressions can start a copy of "not found". */
  lemma RoleCheckHeadAvoidsNotFound()
    ensures NoOverhang("role ", "not found", 0)
    ensures NoOverhang("IN ", "not found", 0)
    ensures NoOverhang("('ad", "not found", 0)
    ensures NoOverhang("min', ", "not found", 0)
  {
  }

  lemma RoleTailStatusHeadAvoidNotFound()
    ensures NoOverhang("'trab", "not found", 0)
    ensures NoOverhang("ajador')", "not found", 0)
    ensures NoOverhang("status ", "not found", 0)
    ensures NoOverhang("('act", "not found", 0)
  {
  }

  lemma StatusListAvoidsNotFound()
    ensures NoOverhang("ivo', ", "not found", 0)
    ensures NoOverhang("'inac", "not found", 0)
    ensures NoOverhang("tivo', ", "not found", 0)
    ensures NoOverhang("'fina", "not found", 0)
  {
  }

  lemma FinalizadoPriorityHeadAvoidNotFound()
    ensures NoOverhang("lizado')", "not found", 0)
    ensures NoOverhang("priority ", "not found", 0)
    ensures NoOverhang("('baja', ", "not found", 0)
  {
  }

  lemma PriorityTailProgressHeadAvoidNotFound()
    ensures NoOverhang("'media', ", "not found", 0)
    ensures NoOverhang("'alta')", "not found", 0)
    ensures NoOverhang("progress_", "not found", 0)
  {
  }

  lemma InicializadoWordsAvoidNotFound()
    ensures NoOverhang("state ", "not found", 0)
    ensures NoOverhang("('inic", "not found", 0)
    ensures NoOverhang("iali", "not found", 0)
    ensures NoOverhang("zado', ", "not found", 0)
  {
  }

  lemma EnProcesoWordsAvoidNotFound()
    ensures NoOverhang("'en ", "not found", 0)
    ensures NoOverhang("proc", "not found", 0)
    ensures NoOverhang("eso', ", "not found", 0)
  {
  }

  /** No piece of the user model's own messages can start a copy of "not found". */
  lemma UserAvoidsNotFound()
    ensures NoOverhang("Name ", "not found", 0)
    ensures NoOverhang("and ", "not found", 0)
    ensures NoOverhang("role ", "not found", 0)
    ensures NoOverhang("are ", "not found", 0)
    ensures NoOverhang("required", "not found", 0)
    ensures NoOverhang("Role ", "not found", 0)
    ensures NoOverhang("must ", "not found", 0)
    ensures NoOverhang("be ", "not found", 0)
    ensures NoOverhang("either ", "not found", 0)
    ensures NoOverhang("admin ", "not found", 0)
    ensures NoOverhang("or ", "not found", 0)
    ensures NoOverhang("trabajador", "not found", 0)
    ensures NoOverhang("User ", "not found", 0)
    ensures NoOverhang("with ", "not found", 0)
    ensures NoOverhang("this ", "not found", 0)
    ensures NoOverhang("name ", "not found", 0)
    ensures NoOverhang("C", "not found", 0)
    ensures NoOverhang("annot delete ", "not found", 0)
    ensures NoOverhang(". ", "not found", 0)
    ensures NoOverhang("Reassign ", "not found", 0)
    ensures NoOverhang("tasks ", "not found", 0)
    ensures NoOverhang("first.", "not found", 0)
    ensures NoOverhang("already exists", "not found", 0)
    ensures NoOverhang("assigned tasks", "not found", 0)
  {
    NameRoleRequiredAvoidNotFound();
    RoleInvalidWordsAvoidNotFound();
    NameTakenReassignAvoidNotFound();
    CannotDeleteAvoidsNotFound();
    AlreadyExistsAvoidsNotFound();
    AssignedTasksAvoidsNotFound();
  }

  lemma NameRoleRequiredAvoidNotFound()
    ensures NoOverhang("Name ", "not found", 0)
    ensures NoOverhang("and ", "not found", 0)
    ensures NoOverhang("role ", "not found", 0)
    ensures NoOverhang("are ", "not found", 0)
    ensures NoOverhang("required", "not found", 0)
    ensures NoOverhang("Role ", "not found", 0)
    ensures NoOverhang("must ", "not found", 0)
  {
  }

  lemma RoleInvalidWordsAvoidNotFound()
    ensures NoOverhang("be ", "not found", 0)
    ensures NoOverhang("either ", "not found", 0)
    ensures NoOverhang("admin ", "not found", 0)
    ensures NoOverhang("or ", "not found", 0)
    ensures NoOverhang("trabajador", "not found", 0)
    ensures NoOverhang("User ", "not found", 0)
    ensures NoOverhang("with ", "not found", 0)
  {
  }

  lemma NameTakenReassignAvoidNotFound()
    ensures NoOverhang("this ", "not found", 0)
    ensures NoOverhang("name ", "not found", 0)
    ensures NoOverhang("C", "not found", 0)
    ensures NoOverhang(". ", "not found", 0)
    ensures NoOverhang("Reassign ", "not found", 0)
    ensures NoOverhang("tasks ", "not found", 0)
    ensures NoOverhang("first.", "not found", 0)
  {
  }

  lemma CannotDeleteAvoidsNotFound()
    ensures NoOverhang("annot delete ", "not found", 0)
  {
    assert NoOverhang("annot delete ", "not found", 10);
    assert NoOverhang("annot delete ", "not found", 7);
    assert NoOverhang("annot delete ", "not found", 4);
    assert NoOverhang("annot delete ", "not found", 1);
  }

  lemma AlreadyExistsAvoidsNotFound()
    ensures NoOverhang("already exists", "not found", 0)
  {
    assert NoOverhang("already exists", "not found", 11);
    assert NoOverhang("already exists", "not found", 8);
    assert NoOverhang("already exists", "not found", 5);
    assert NoOverhang("already exists", "not found", 2);
  }

  lemma AssignedTasksAvoidsNotFound()
    ensures NoOverhang("assigned tasks", "not found", 0)
  {
    assert NoOverhang("assigned tasks", "not found", 11);
    assert NoOverhang("assigned tasks", "not found", 8);
    assert NoOverhang("assigned tasks", "not found", 5);
    assert NoOverhang("assigned tasks", "not found", 2);
  }

  /** No piece of the prefixes the models put in front of their messages can start a copy of "already exists". */
  lemma PrefixAvoidsAlreadyExists()
    ensures NoOverhang("Error ", "already exists", 0)
    ensures NoOverhang("fetching ", "already exists", 0)
    ensures NoOverhang("creating ", "already exists", 0)
    ensures NoOverhang("updating ", "already exists", 0)
    ensures NoOverhang("deleting ", "already exists", 0)
    ensures NoOverhang("adding ", "already exists", 0)
    ensures NoOverhang("task: ", "already exists", 0)
    ensures NoOverhang("update: ", "already exists", 0)
    ensures NoOverhang("user: ", "already exists", 0)
  {
    ErrorFetchCreateUpdateAvoidAlreadyExists();
    DeletingAddingTaskAvoidAlreadyExists();
    UpdateUserNounsAvoidAlreadyExists();
  }

  lemma ErrorFetchCreateUpdateAvoidAlreadyExists()
    ensures NoOverhang("Error ", "already exists", 0)
    ensures NoOverhang("fetching ", "already exists", 0)
    ensures NoOverhang("creating ", "already exists", 0)
    ensures NoOverhang("updating ", "already exists", 0)
  {
  }

  lemma DeletingAddingTaskAvoidAlreadyExists()
    ensures NoOverhang("deleting ", "already exists", 0)
    ensures NoOverhang("adding ", "already exists", 0)
    ensures NoOverhang("task: ", "already exists", 0)
  {
  }

  lemma UpdateUserNounsAvoidAlreadyExists()
    ensures NoOverhang("update: ", "already exists", 0)
    ensures NoOverhang("user: ", "already exists", 0)
  {
  }

  /** No piece of the SQLite driver's constraint messages can start a copy of "already exists". */
  lemma DriverAvoidsAlreadyExists()
    ensures NoOverhang("SQLITE_", "already exists", 0)
    ensures NoOverhang("CONSTRAINT: ", "already exists", 0)
    ensures NoOverhang("NOT NULL ", "already exists", 0)
    ensures NoOverhang("CHECK ", "already exists", 0)
    ensures NoOverhang("UNIQUE ", "already exists", 0)
    ensures NoOverhang("constraint ", "already exists", 0)
    ensures NoOverhang("failed: ", "already exists", 0)
    ensures NoOverhang("tasks.", "already exists", 0)
    ensures NoOverhang("title", "already exists", 0)
    ensures NoOverhang("status", "already exists", 0)
    ensures NoOverhang("priority", "already exists", 0)
    ensures NoOverhang("progress_state", "already exists", 0)
    ensures NoOverhang("created_by", "already exists", 0)
    ensures NoOverhang("updates.", "already exists", 0)
    ensures NoOverhang("user_id", "already exists", 0)
    ensures NoOverhang("users.", "already exists", 0)
    ensures NoOverhang("name", "already exists", 0)
    ensures NoOverhang("role", "already exists", 0)
  {
    SqliteKindsAvoidAlreadyExists();
    ConstraintFailedTasksAvoidAlreadyExists();
    ColumnNamesAvoidAlreadyExists();
    UserColumnsAvoidAlreadyExists();
    ConstraintCodeAvoidsAlreadyExists();
    ProgressStateColumnAvoidsAlreadyExists();
  }

  lemma SqliteKindsAvoidAlreadyExists()
    ensures NoOverhang("SQLITE_", "already exists", 0)
    ensures NoOverhang("NOT NULL ", "already exists", 0)
    ensures NoOverhang("CHECK ", "already exists", 0)
    ensures NoOverhang("UNIQUE ", "already exists", 0)
  {
  }

  lemma ConstraintFailedTasksAvoidAlreadyExists()
    ensures NoOverhang("constraint ", "already exists", 0)
    ensures NoOverhang("failed: ", "already exists", 0)
    ensures NoOverhang("tasks.", "already exists", 0)
  {
  }

  lemma ColumnNamesAvoidAlreadyExists()
    ensures NoOverhang("title", "already exists", 0)
    ensures NoOverhang("status", "already exists", 0)
    ensures NoOverhang("priority", "already exists", 0)
    ensures NoOverhang("created_by", "already exists", 0)
    ensures NoOverhang("updates.", "already exists", 0)
    ensures NoOverhang("user_id", "already exists", 0)
    ensures NoOverhang("users.", "already exists", 0)
  {
  }

  lemma UserColumnsAvoidAlreadyExists()
    ensures NoOverhang("name", "already exists", 0)
    ensures NoOverhang("role", "already exists", 0)
  {
  }

  lemma ConstraintCodeAvoidsAlreadyExists()
    ensures NoOverhang("CONSTRAINT: ", "already exists", 0)
  {
    assert NoOverhang("CONSTRAINT: ", "already exists", 9);
    assert NoOverhang("CONSTRAINT: ", "already exists", 6);
    assert NoOverhang("CONSTRAINT: ", "already exists", 3);
  }

  lemma ProgressStateColumnAvoidsAlreadyExists()
    ensures NoOverhang("progress_state", "already exists", 0)
  {
    assert NoOverhang("progress_state", "already exists", 11);
    assert NoOverhang("progress_state", "already exists", 8);
    assert NoOverhang("progress_state", "already exists", 5);
    assert NoOverhang("progress_state", "already exists", 2);
  }

  /** No piece of the role CHECK's expression can start a copy of "already exists". */
  lemma RoleCheckHeadAvoidsAlreadyExists()
    ensures NoOverhang("role ", "already exists", 0)
    ensures NoOverhang("IN ", "already exists", 0)
    ensures NoOverhang("('ad", "already exists", 0)
  {
  }

  lemma RoleCheckTailAvoidsAlreadyExists()
    ensures NoOverhang("min', ", "already exists", 0)
    ensures NoOverhang("'trab", "already exists", 0)
    ensures NoOverhang("ajador')", "already exists", 0)
  {
  }

  /** No piece of the user model's own messages can start a copy of "already exists". */
  lemma UserAvoidsAlreadyExists()
    ensures NoOverhang("Name ", "already exists", 0)
    ensures NoOverhang("and ", "already exists", 0)
    ensures NoOverhang("role ", "already exists", 0)
    ensures NoOverhang("are ", "already exists", 0)
    ensures NoOverhang("required", "already exists", 0)
    ensures NoOverhang("Role ", "already exists", 0)
    ensures NoOverhang("must ", "already exists", 0)
    ensures NoOverhang("be ", "already exists", 0)
    ensures NoOverhang("either ", "already exists", 0)
    ensures NoOverhang("admin ", "already exists", 0)
    ensures NoOverhang("or ", "already exists", 0)
    ensures NoOverhang("trabajador", "already exists", 0)
    ensures NoOverhang("User ", "already exists", 0)
    ensures NoOverhang("with ", "already exists", 0)
    ensures NoOverhang("this ", "already exists", 0)
    ensures NoOverhang("name ", "already exists", 0)
    ensures NoOverhang("C", "already exists", 0)
    ensures NoOverhang("annot delete ", "already exists", 0)
    ensures NoOverhang(". ", "already exists", 0)
    ensures NoOverhang("Reassign ", "already exists", 0)
    ensures NoOverhang("tasks ", "already exists", 0)
    ensures NoOverhang("first.", "already exists", 0)
    ensures NoOverhang("not found", "already exists", 0)
    ensures NoOverhang("assigned tasks", "already exists", 0)
  {
    NameRoleRequiredAvoidAlreadyExists();
    RoleInvalidWordsAvoidAlreadyExists();
    NameTakenReassignAvoidAlreadyExists();
    NotFoundAvoidsAlreadyExists();
    CannotDeleteAvoidsAlreadyExists();
    AssignedTasksAvoidsAlreadyExists();
  }

  lemma NameRoleRequiredAvoidAlreadyExists()
    ensures NoOverhang("Name ", "already exists", 0)
    ensures NoOverhang("and ", "already exists", 0)
    ensures NoOverhang("role ", "already exists", 0)
    ensures NoOverhang("are ", "already exists", 0)
    ensures NoOverhang("required", "already exists", 0)
    ensures NoOverhang("Role ", "already exists", 0)
    ensures NoOverhang("must ", "already exists", 0)
  {
  }

  lemma RoleInvalidWordsAvoidAlreadyExists()
    ensures NoOverhang("be ", "already exists", 0)
    ensures NoOverhang("either ", "already exists", 0)
    ensures NoOverhang("admin ", "already exists", 0)
    ensures NoOverhang("or ", "already exists", 0)
    ensures NoOverhang("trabajador", "already exists", 0)
    ensures NoOverhang("User ", "already exists", 0)
    ensures NoOverhang("with ", "already exists", 0)
  {
  }

  lemma NameTakenReassignAvoidAlreadyExists()
    ensures NoOverhang("this ", "already exists", 0)
    ensures NoOverhang("name ", "already exists", 0)
    ensures NoOverhang("C", "already exists", 0)
    ensures NoOverhang(". ", "already exists", 0)
    ensures NoOverhang("Reassign ", "already exists", 0)
    ensures NoOverhang("tasks ", "already exists", 0)
    ensures NoOverhang("first.", "already exists", 0)
  {
  }

  lemma NotFoundAvoidsAlreadyExists()
    ensures NoOverhang("not found", "already exists", 0)
  {
  }

  lemma CannotDeleteAvoidsAlreadyExists()
    ensures NoOverhang("annot delete ", "already exists", 0)
  {
    assert NoOverhang("annot delete ", "already exists", 10);
    assert NoOverhang("annot delete ", "already exists", 7);
    assert NoOverhang("annot delete ", "already exists", 4);
    assert NoOverhang("annot delete ", "already exists", 1);
  }

  lemma AssignedTasksAvoidsAlreadyExists()
    ensures NoOverhang("assigned tasks", "already exists", 0)
  {
    assert NoOverhang("assigned tasks", "already exists", 11);
    assert NoOverhang("assigned tasks", "already exists", 8);
    assert NoOverhang("assigned tasks", "already exists", 5);
    assert NoOverhang("assigned tasks", "already exists", 2);
  }

  /** No piece of the prefixes the models put in front of their messages can start a copy of "assigned tasks". */
  lemma PrefixAvoidsAssignedTasks()
    ensures NoOverhang("Error ", "assigned tasks", 0)
    ensures NoOverhang("fetching ", "assigned tasks", 0)
    ensures NoOverhang("creating ", "assigned tasks", 0)
    ensures NoOverhang("updating ", "assigned tasks", 0)
    ensures NoOverhang("deleting ", "assigned tasks", 0)
    ensures NoOverhang("adding ", "assigned tasks", 0)
    ensures NoOverhang("task: ", "assigned tasks", 0)
    ensures NoOverhang("update: ", "assigned tasks", 0)
    ensures NoOverhang("user: ", "assigned tasks", 0)
  {
    ErrorFetchCreateUpdateAvoidAssignedTasks();
    DeletingAddingTaskAvoidAssignedTasks();
    UpdateUserNounsAvoidAssignedTasks();
  }

  lemma ErrorFetchCreateUpdateAvoidAssignedTasks()
    ensures NoOverhang("Error ", "assigned tasks", 0)
    ensures NoOverhang("fetching ", "assigned tasks", 0)
    ensures NoOverhang("creating ", "assigned tasks", 0)
    ensures NoOverhang("updating ", "assigned tasks", 0)
  {
  }

  lemma DeletingAddingTaskAvoidAssignedTasks()
    ensures NoOverhang("deleting ", "assigned tasks", 0)
    ensures NoOverhang("adding ", "assigned tasks", 0)
    ensures NoOverhang("task: ", "assigned tasks", 0)
  {
  }

  lemma UpdateUserNounsAvoidAssignedTasks()
    ensures NoOverhang("update: ", "assigned tasks", 0)
    ensures NoOverhang("user: ", "assigned tasks", 0)
  {
  }

  /** No piece of the SQLite driver's constraint messages can start a copy of "assigned tasks". */
  lemma DriverAvoidsAssignedTasks()
    ensures NoOverhang("SQLITE_", "assigned tasks", 0)
    ensures NoOverhang("CONSTRAINT: ", "assigned tasks", 0)
    ensures NoOverhang("NOT NULL ", "assigned tasks", 0)
    ensures NoOverhang("CHECK ", "assigned tasks", 0)
    ensures NoOverhang("UNIQUE ", "assigned tasks", 0)
    ensures NoOverhang("constraint ", "assigned tasks", 0)
    ensures NoOverhang("failed: ", "assigned tasks", 0)
    ensures NoOverhang("tasks.", "assigned tasks", 0)
    ensures NoOverhang("title", "assigned tasks", 0)
    ensures NoOverhang("status", "assigned tasks", 0)
    ensures NoOverhang("priority", "assigned tasks", 0)
    ensures NoOverhang("progress_state", "assigned tasks", 0)
    ensures NoOverhang("created_by", "assigned tasks", 0)
    ensures NoOverhang("updates.", "assigned tasks", 0)
    ensures NoOverhang("user_id", "assigned tasks", 0)
    ensures NoOverhang("users.", "assigned tasks", 0)
    ensures NoOverhang("name", "assigned tasks", 0)
    ensures NoOverhang("role", "assigned tasks", 0)
  {
    SqliteKindsConstraintFailedAvoidAssignedTasks();
    ColumnNamesAvoidAssignedTasks();
    UserColumnsAvoidAssignedTasks();
    ConstraintCodeAvoidsAssignedTasks();
    ProgressStateColumnAvoidsAssignedTasks();
  }

  lemma SqliteKindsConstraintFailedAvoidAssignedTasks()
    ensures NoOverhang("SQLITE_", "assigned tasks", 0)
    ensures NoOverhang("NOT NULL ", "assigned tasks", 0)
    ensures NoOverhang("CHECK ", "assigned tasks", 0)
    ensures NoOverhang("UNIQUE ", "assigned tasks", 0)
    ensures NoOverhang("constraint ", "assigned tasks", 0)
    ensures NoOverhang("failed: ", "assigned tasks", 0)
    ensures NoOverhang("tasks.", "assigned tasks", 0)
  {
  }

  lemma ColumnNamesAvoidAssignedTasks()
    ensures NoOverhang("title", "assigned tasks", 0)
    ensures NoOverhang("status", "assigned tasks", 0)
    ensures NoOverhang("priority", "assigned tasks", 0)
    ensures NoOverhang("created_by", "assigned tasks", 0)
    ensures NoOverhang("updates.", "assigned tasks", 0)
    ensures NoOverhang("user_id", "assigned tasks", 0)
    ensures NoOverhang("users.", "assigned tasks", 0)
  {
  }

  lemma UserColumnsAvoidAssignedTasks()
    ensures NoOverhang("name", "assigned tasks", 0)
    ensures NoOverhang("role", "assigned tasks", 0)
  {
  }

  lemma ConstraintCodeAvoidsAssignedTasks()
    ensures NoOverhang("CONSTRAINT: ", "assigned tasks", 0)
  {
    assert NoOverhang("CONSTRAINT: ", "assigned tasks", 9);
    assert NoOverhang("CONSTRAINT: ", "assigned tasks", 6);
    assert NoOverhang("CONSTRAINT: ", "assigned tasks", 3);
  }

  lemma ProgressStateColumnAvoidsAssignedTasks()
    ensures NoOverhang("progress_state", "assigned tasks", 0)
  {
    assert NoOverhang("progress_state", "assigned tasks", 11);
    assert NoOverhang("progress_state", "assigned tasks", 8);
    assert NoOverhang("progress_state", "assigned tasks", 5);
    assert NoOverhang("progress_state", "assigned tasks", 2);
  }

  /** No piece of the user model's own messages can start a copy of "assigned tasks". */
  lemma UserAvoidsAssignedTasks()
    ensures NoOverhang("Name ", "assigned tasks", 0)
    ensures NoOverhang("and ", "assigned tasks", 0)
    ensures NoOverhang("role ", "assigned tasks", 0)
    ensures NoOverhang("are ", "assigned tasks", 0)
    ensures NoOverhang("required", "assigned tasks", 0)
    ensures NoOverhang("Role ", "assigned tasks", 0)
    ensures NoOverhang("must ", "assigned tasks", 0)
    ensures NoOverhang("be ", "assigned tasks", 0)
    ensures NoOverhang("either ", "assigned tasks", 0)
    ensures NoOverhang("admin ", "assigned tasks", 0)
    ensures NoOverhang("or ", "assigned tasks", 0)
    ensures NoOverhang("trabajador", "assigned tasks", 0)
    ensures NoOverhang("User ", "assigned tasks", 0)
    ensures NoOverhang("with ", "assigned tasks", 0)
    ensures NoOverhang("this ", "assigned tasks", 0)
    ensures NoOverhang("name ", "assigned tasks", 0)
    ensures NoOverhang("C", "assigned tasks", 0)
    ensures NoOverhang("annot delete ", "assigned tasks", 0)
    ensures NoOverhang(". ", "assigned tasks", 0)
    ensures NoOverhang("Reassign ", "assigned tasks", 0)
    ensures NoOverhang("tasks ", "assigned tasks", 0)
    ensures NoOverhang("first.", "assigned tasks", 0)
    ensures NoOverhang("not found", "assigned tasks", 0)
    ensures NoOverhang("already exists", "assigned tasks", 0)
  {
    NameRoleRequiredAvoidAssignedTasks();
    RoleInvalidWordsAvoidAssignedTasks();
    NameTakenReassignAvoidAssignedTasks();
    NotFoundAvoidsAssignedTasks();
    CannotDeleteAvoidsAssignedTasks();
    AlreadyExistsAvoidsAssignedTasks();
  }

  lemma NameRoleRequiredAvoidAssignedTasks()
    ensures NoOverhang("Name ", "assigned tasks", 0)
    ensures NoOverhang("and ", "assigned tasks", 0)
    ensures NoOverhang("role ", "assigned tasks", 0)
    ensures NoOverhang("are ", "assigned tasks", 0)
    ensures NoOverhang("required", "assigned tasks", 0)
    ensures NoOverhang("Role ", "assigned tasks", 0)
    ensures NoOverhang("must ", "assigned tasks", 0)
  {
  }

  lemma RoleInvalidWordsAvoidAssignedTasks()
    ensures NoOverhang("be ", "assigned tasks", 0)
    ensures NoOverhang("either ", "assigned tasks", 0)
    ensures NoOverhang("admin ", "assigned tasks", 0)
    ensures NoOverhang("or ", "assigned tasks", 0)
    ensures NoOverhang("trabajador", "assigned tasks", 0)
    ensures NoOverhang("User ", "assigned tasks", 0)
    ensures NoOverhang("with ", "assigned tasks", 0)
  {
  }

  lemma NameTakenReassignAvoidAssignedTasks()
    ensures NoOverhang("this ", "assigned tasks", 0)
    ensures NoOverhang("name ", "assigned tasks", 0)
    ensures NoOverhang("C", "assigned tasks", 0)
    ensures NoOverhang(". ", "assigned tasks", 0)
    ensures NoOverhang("Reassign ", "assigned tasks", 0)
    ensures NoOverhang("tasks ", "assigned tasks", 0)
    ensures NoOverhang("first.", "assigned tasks", 0)
  {
  }

  lemma NotFoundAvoidsAssignedTasks()
    ensures NoOverhang("not found", "assigned tasks", 0)
  {
  }

  lemma CannotDeleteAvoidsAssignedTasks()
    ensures NoOverhang("annot delete ", "assigned tasks", 0)
  {
    assert NoOverhang("annot delete ", "assigned tasks", 10);
    assert NoOverhang("annot delete ", "assigned tasks", 7);
    assert NoOverhang("annot delete ", "assigned tasks", 4);
    assert NoOverhang("annot delete ", "assigned tasks", 1);
  }

  lemma AlreadyExistsAvoidsAssignedTasks()
    ensures NoOverhang("already exists", "assigned tasks", 0)
  {
    assert NoOverhang("already exists", "assigned tasks", 11);
    assert NoOverhang("already exists", "assigned tasks", 8);
    assert NoOverhang("already exists", "assigned tasks", 5);
    assert NoOverhang("already exists", "assigned tasks", 2);
  }
}
