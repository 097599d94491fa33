/** What setting the system up adds at most, whether it completes or is cut off: nothing for
    another user, client or application, and no other role, permission or key. */
module SystemFrame {
  import opened Text
  import opened NamedRows
  import opened SystemBaseline
  import opened SystemPlan
  import opened SystemOutcome

  /** The client ids a configuration asks for. */
  function ClientIds(c: Config): set<string> {
    (if c.web then {"idp-web", "management-web"} else {}) +
    (if c.desktop then {"idp-desktop", "management-desktop"} else {})
  }

  /** New applications, clients and user names are those asked for; other clients are as before. */
  predicate RowsFrame(c: Config, input: Input, before: World, w: World) {
    && (forall uri :: uri in w.apps ==> uri in before.apps || uri in {"lidp", "idp-management"})
    && (forall id :: id in w.clients ==>
          id in ClientIds(c) || (id in before.clients && w.clients[id] == before.clients[id]))
    && (forall u :: u in w.handles ==> u in before.handles || u == input.username)
  }

  predicate HasRow(rows: seq<Row>, app: Id, name: string, id: Id) {
    exists i :: 0 <= i < |rows| && IsRow(rows[i], app, name) && rows[i].id == id
  }

  function ManagementApp(w: World): Option<Id> {
    if "idp-management" in w.apps then Some(w.apps["idp-management"].id) else None
  }

  /** The rows from the n-th on are rows of this name of the application. */
  predicate NewRows(n: nat, rows: seq<Row>, app: Option<Id>, name: string) {
    forall i :: n <= i < |rows| ==> app.Some? && IsRow(rows[i], app.value, name)
  }

  /** New roles and permissions are "admin" and "*" of the management application. */
  predicate NamesFrame(before: World, w: World) {
    && NewRows(|before.roles|, w.roles, ManagementApp(w), "admin")
    && NewRows(|before.permissions|, w.permissions, ManagementApp(w), "*")
  }

  /** A role "admin" gets a permission "*", and the named user such a role; nothing else. */
  predicate AccessFrame(input: Input, before: World, w: World) {
    && (forall x :: x in w.rolePermissions && x !in before.rolePermissions ==>
          "idp-management" in w.apps && HasRow(w.roles, w.apps["idp-management"].id, "admin", x.0) &&
          HasRow(w.permissions, w.apps["idp-management"].id, "*", x.1))
    && (forall x :: x in w.userRoles && x !in before.userRoles ==>
          "idp-management" in w.apps && x.0 == w.apps["idp-management"].id &&
          IsUser(w, input.username, x.1) && HasRow(w.roles, x.0, "admin", x.2))
  }

  /** The entity is the named user or a client asked for. */
  predicate IsAsked(c: Config, input: Input, w: World, e: Entity) {
    match e
    case UserEntity(id) => IsUser(w, input.username, id)
    case ClientEntity(id) =>
      exists client :: client in ClientIds(c) && client in w.clients && w.clients[client].id == id
  }

  predicate KeysFrame(c: Config, input: Input, before: World, w: World) {
    && (forall e :: e in w.roots && e !in before.roots ==> IsAsked(c, input, w, e))
    && (forall s :: s in w.stored && s !in before.stored ==> IsAsked(c, input, w, s.0))
  }

  predicate OnlyBaseline(c: Config, input: Input, before: World, w: World) {
    && RowsFrame(c, input, before, w) && NamesFrame(before, w)
    && AccessFrame(input, before, w) && KeysFrame(c, input, before, w)
  }

  // ---------------------------------------------------------------- the tasks of the plan

  predicate OwnerAsked(c: Config, input: Input, owner: Owner) {
    match owner
    case ClientOwner(id) => id in ClientIds(c)
    case UserOwner(name) => name == input.username
  }

  predicate Asked(c: Config, input: Input, t: Task) {
    match t
    case AppTask(_, uri) => uri in {"lidp", "idp-management"}
    case ClientTask(spec) => spec.clientId in ClientIds(c)
    case MasterTask(owner) => OwnerAsked(c, input, owner)
    case RootTask(owner) => OwnerAsked(c, input, owner)
    case StoreTask(owner) => OwnerAsked(c, input, owner)
    case UserTask(user) => user == input.username
    case DeviceTask(user, _, _, _) => user == input.username
    case UserRoleTask(user) => user == input.username
    case _ => true
  }

  predicate AllAsked(c: Config, input: Input, tasks: seq<Task>) {
    forall i :: 0 <= i < |tasks| ==> Asked(c, input, tasks[i])
  }

  lemma AskedConcat(c: Config, input: Input, a: seq<Task>, b: seq<Task>)
    requires AllAsked(c, input, a) && AllAsked(c, input, b)
    ensures AllAsked(c, input, a + b)
  {
  }

  lemma ClientAsked(c: Config, input: Input, spec: Option<ClientSpec>)
    requires spec.Some? ==> spec.value.clientId in ClientIds(c)
    ensures AllAsked(c, input, OptionalTasks(spec))
  {
  }

  lemma ApplicationAsked(c: Config, input: Input, name: string, uri: string, web: Option<ClientSpec>,
                         desktop: Option<ClientSpec>)
    requires uri in {"lidp", "idp-management"}
    requires web.Some? ==> web.value.clientId in ClientIds(c)
    requires desktop.Some? ==> desktop.value.clientId in ClientIds(c)
    ensures AllAsked(c, input, ApplicationTasks(name, uri, web, desktop))
  {
    ClientAsked(c, input, web);
    ClientAsked(c, input, desktop);
    AskedConcat(c, input, OptionalTasks(web), OptionalTasks(desktop));
    AskedConcat(c, input, [AppTask(name, uri)], OptionalTasks(web) + OptionalTasks(desktop));
  }

  lemma AdminAsked(c: Config, input: Input, device: Option<Enrolled>)
    ensures AllAsked(c, input, AdminTasks(input, device))
  {
  }

  /** Every task of the plan is one that was asked for. */
  lemma PlanAsked(c: Config, input: Input, device: Option<Enrolled>)
    ensures AllAsked(c, input, Plan(c, input, device))
  {
    ApplicationAsked(c, input, "IdP", "lidp",
                     Spec(c.web, "idp-web", "IdP Web", c.idpUrl, Web, "lidp"),
                     Spec(c.desktop, "idp-desktop", "IdP Desktop", c.idpUrl, Native, "lidp"));
    ApplicationAsked(c, input, "Management", MANAGEMENT,
                     Spec(c.web, "management-web", "Management Web", c.managementUrl, Web, MANAGEMENT),
                     Spec(c.desktop, "management-desktop", "Management Desktop", c.managementUrl, Native, MANAGEMENT));
    AdminAsked(c, input, device);
    AskedConcat(c, input, ManagementTasks(c), AdminTasks(input, device));
    AskedConcat(c, input, IdpTasks(c), ManagementTasks(c) + AdminTasks(input, device));
  }

  // ---------------------------------------------------------------- one task

  lemma DoRowsFrame(c: Config, input: Input, before: World, w: World, t: Task)
    requires RowsFrame(c, input, before, w) && Asked(c, input, t)
    ensures RowsFrame(c, input, before, Do(t, w))
  {
  }

  lemma NewRowsKept(n: nat, rows: seq<Row>, more: seq<Row>, app: Option<Id>, after: Option<Id>, id: Id, name: string)
    requires NewRows(n, rows, app, name) && (app.Some? ==> after == app)
    requires more == rows || (app.Some? && more == rows + [Row(id, app.value, name, true)])
    ensures NewRows(n, more, after, name)
  {
    forall i | n <= i < |more| ensures after.Some? && IsRow(more[i], after.value, name) {
      if i < |rows| { assert more[i] == rows[i]; }
    }
  }

  lemma ManagementStays(w: World, t: Task)
    requires Valid(w)
    ensures ManagementApp(w).Some? ==> ManagementApp(Do(t, w)) == ManagementApp(w)
  {
    DoKeeps(t, w);
  }

  lemma RowsWritten(w: World, t: Task)
    ensures var v := Do(t, w);
            && (v.roles == w.roles || (ManagementApp(w).Some? &&
                                       v.roles == w.roles + [Row(w.next, ManagementApp(w).value, ADMIN, true)]))
            && (v.permissions == w.permissions ||
                (ManagementApp(w).Some? &&
                 v.permissions == w.permissions + [Row(w.next, ManagementApp(w).value, ANY, true)]))
  {
  }

  lemma DoNamesFrame(before: World, w: World, t: Task)
    requires Valid(w) && NamesFrame(before, w)
    ensures NamesFrame(before, Do(t, w))
  {
    var v := Do(t, w);
    ManagementStays(w, t);
    RowsWritten(w, t);
    NewRowsKept(|before.roles|, w.roles, v.roles, ManagementApp(w), ManagementApp(v), w.next, ADMIN);
    NewRowsKept(|before.permissions|, w.permissions, v.permissions, ManagementApp(w), ManagementApp(v), w.next, ANY);
  }

  lemma HasRowKept(rows: seq<Row>, more: seq<Row>, app: Id, name: string, id: Id)
    requires rows <= more && HasRow(rows, app, name, id)
    ensures HasRow(more, app, name, id)
  {
    var i :| 0 <= i < |rows| && IsRow(rows[i], app, name) && rows[i].id == id;
    assert more[i] == rows[i];
  }

  lemma IsUserKept(w: World, v: World, name: string, user: Id)
    requires Kept(w, v) && IsUser(w, name, user)
    ensures IsUser(v, name, user)
  {
    assert UserId(w, name) == Some(user);
  }

  /** What was allowed stays allowed. */
  lemma AccessFrameKept(input: Input, before: World, w: World, v: World)
    requires Kept(w, v) && AccessFrame(input, before, w)
    requires v.rolePermissions == w.rolePermissions && v.userRoles == w.userRoles
    ensures AccessFrame(input, before, v)
  {
    forall x | x in v.rolePermissions && x !in before.rolePermissions
      ensures "idp-management" in v.apps && HasRow(v.roles, v.apps["idp-management"].id, "admin", x.0)
      ensures HasRow(v.permissions, v.apps["idp-management"].id, "*", x.1)
    {
      HasRowKept(w.roles, v.roles, w.apps["idp-management"].id, "admin", x.0);
      HasRowKept(w.permissions, v.permissions, w.apps["idp-management"].id, "*", x.1);
    }
    forall x | x in v.userRoles && x !in before.userRoles
      ensures "idp-management" in v.apps && x.0 == v.apps["idp-management"].id && IsUser(v, input.username, x.1)
      ensures HasRow(v.roles, x.0, "admin", x.2)
    {
      HasRowKept(w.roles, v.roles, x.0, "admin", x.2);
      IsUserKept(w, v, input.username, x.1);
    }
  }

  lemma RelatesAdmin(input: Input, before: World, w: World)
    requires AccessFrame(input, before, w) && MANAGEMENT in w.apps && AdminRole(w).Some? && AnyPermission(w).Some?
    ensures AccessFrame(input, before, w.(rolePermissions := w.rolePermissions +
                                                             {(AdminRole(w).value, AnyPermission(w).value)}))
  {
    var r := AdminRoleRow(w);
    var p := AnyPermissionRow(w);
    assert HasRow(w.roles, w.apps["idp-management"].id, "admin", w.roles[r].id);
    assert HasRow(w.permissions, w.apps["idp-management"].id, "*", w.permissions[p].id);
  }

  lemma GivesAdmin(input: Input, before: World, w: World, user: Id)
    requires AccessFrame(input, before, w) && MANAGEMENT in w.apps && AdminRole(w).Some?
    requires UserId(w, input.username) == Some(user)
    ensures AccessFrame(input, before, w.(userRoles := w.userRoles +
                                                       {(w.apps[MANAGEMENT].id, user, AdminRole(w).value)}))
  {
    var r := AdminRoleRow(w);
    assert HasRow(w.roles, w.apps["idp-management"].id, "admin", w.roles[r].id);
  }

  lemma DoAccessFrame(c: Config, input: Input, before: World, w: World, t: Task)
    requires Valid(w) && AccessFrame(input, before, w) && Asked(c, input, t)
    ensures AccessFrame(input, before, Do(t, w))
  {
    DoKeeps(t, w);
    if Do(t, w) == w {
    } else if t.RolePermissionTask? {
      RelatesAdmin(input, before, w);
    } else if t.UserRoleTask? {
      GivesAdmin(input, before, w, UserId(w, input.username).value);
    } else {
      AccessFrameKept(input, before, w, Do(t, w));
    }
  }

  lemma IsAskedKept(c: Config, input: Input, w: World, v: World, e: Entity)
    requires Kept(w, v) && IsAsked(c, input, w, e)
    ensures IsAsked(c, input, v, e)
  {
    match e
    case UserEntity(id) => IsUserKept(w, v, input.username, id);
    case ClientEntity(id) =>
      var client :| client in ClientIds(c) && client in w.clients && w.clients[client].id == id;
      assert client in v.clients && v.clients[client].id == id;
  }

  lemma OwnerIsAsked(c: Config, input: Input, w: World, owner: Owner)
    requires OwnerAsked(c, input, owner) && Resolve(w, owner).Some?
    ensures IsAsked(c, input, w, Resolve(w, owner).value)
  {
  }

  lemma KeysFrameKept(c: Config, input: Input, before: World, w: World, v: World)
    requires Kept(w, v) && KeysFrame(c, input, before, w)
    requires forall e :: e in v.roots && e !in w.roots ==> IsAsked(c, input, v, e)
    requires forall s :: s in v.stored && s !in w.stored ==> IsAsked(c, input, v, s.0)
    ensures KeysFrame(c, input, before, v)
  {
    forall e | e in v.roots && e !in before.roots ensures IsAsked(c, input, v, e) {
      if e in w.roots { IsAskedKept(c, input, w, v, e); }
    }
    forall s | s in v.stored && s !in before.stored ensures IsAsked(c, input, v, s.0) {
      if s in w.stored { IsAskedKept(c, input, w, v, s.0); }
    }
  }

  lemma DoKeysFrame(c: Config, input: Input, before: World, w: World, t: Task)
    requires Valid(w) && KeysFrame(c, input, before, w) && Asked(c, input, t)
    ensures KeysFrame(c, input, before, Do(t, w))
  {
    var v := Do(t, w);
    DoKeeps(t, w);
    if t.MasterTask? || t.RootTask? || t.StoreTask? {
      if Resolve(w, t.owner).Some? {
        OwnerIsAsked(c, input, w, t.owner);
        IsAskedKept(c, input, w, v, Resolve(w, t.owner).value);
      }
    }
    KeysFrameKept(c, input, before, w, v);
  }

  // ---------------------------------------------------------------- any prefix of the plan

  lemma {:induction false} PerformFrame(c: Config, input: Input, before: World, w: World, tasks: seq<Task>)
    requires Valid(w) && OnlyBaseline(c, input, before, w) && AllAsked(c, input, tasks)
    ensures OnlyBaseline(c, input, before, Perform(tasks, w))
    decreases |tasks|
  {
    if tasks != [] {
      var t := tasks[0];
      DoKeeps(t, w);
      DoRowsFrame(c, input, before, w, t);
      DoNamesFrame(before, w, t);
      DoAccessFrame(c, input, before, w, t);
      DoKeysFrame(c, input, before, w, t);
      PerformFrame(c, input, before, Do(t, w), tasks[1..]);
    }
  }

  /** However far a run of the plan gets, it adds nothing that was not asked for. */
  lemma PlanFrame(c: Config, input: Input, device: Option<Enrolled>, w: World, done: seq<Task>)
    requires Valid(w) && done <= Plan(c, input, device)
    ensures OnlyBaseline(c, input, w, Perform(done, w))
  {
    PlanAsked(c, input, device);
    assert AllAsked(c, input, done);
    PerformFrame(c, input, w, w, done);
  }
}
