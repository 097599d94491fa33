/** What setting the system up amounts to: a fixed list of tasks, each of which finds what it
    needs or makes one write. A run that is cut off has done a prefix of the list. Repositories
    are keyed maps and row lists; ids of new rows are fresh. */
module SystemBaseline {
  import opened Text
  import opened NamedRows

  const LIMIT := 1000
  const MANAGEMENT := "idp-management"
  const ADMIN := "admin"
  const ANY := "*"

  datatype Profile = Web | Native

  datatype App = App(id: Id, name: string, uri: string)

  datatype Client = Client(
    id: Id,
    app: Id,
    clientId: string,
    name: string,
    uri: string,
    scopes: seq<string>,
    profile: Profile,
    redirects: seq<string>)

  datatype Device = Device(owner: Id, name: string, publicKey: string, address: string, approved: bool)

  datatype Entity = ClientEntity(id: Id) | UserEntity(id: Id)

  /** `apps`, `clients` and `handles` are what looking up a URI, a client id or a user name
      finds; `emails` names a user id; `roots` is the index of an entity's active root key, and
      `stored` the private keys at hand: `None` the master key, `Some(i)` the one at root `i`. */
  datatype World = World(
    next: Id,
    nextRoot: nat,
    apps: map<string, App>,
    clients: map<string, Client>,
    users: set<Id>,
    handles: map<string, Id>,
    emails: map<string, Id>,
    devices: seq<Device>,
    roles: seq<Row>,
    permissions: seq<Row>,
    rolePermissions: set<(Id, Id)>,
    userRoles: set<(Id, Id, Id)>,
    roots: map<Entity, nat>,
    stored: set<(Entity, Option<nat>)>)

  /** New ids occur nowhere yet. */
  predicate Valid(w: World) {
    && (forall uri :: uri in w.apps ==> w.apps[uri].id < w.next && w.apps[uri].uri == uri)
    && (forall c :: c in w.clients ==> w.clients[c].id < w.next && w.clients[c].clientId == c)
    && (forall u :: u in w.handles ==> w.handles[u] < w.next)
    && (forall e :: e in w.emails ==> w.emails[e] < w.next)
    && (forall i :: 0 <= i < |w.roles| ==> w.roles[i].app < w.next)
    && (forall i :: 0 <= i < |w.permissions| ==> w.permissions[i].app < w.next)
    && (forall e :: e in w.roots ==> e.id < w.next)
    && (forall s :: s in w.stored ==> s.0.id < w.next)
  }

  // ---------------------------------------------------------------- lookups

  function UserId(w: World, name: string): Option<Id> {
    if name in w.handles then Some(w.handles[name])
    else if name in w.emails && w.emails[name] in w.users then Some(w.emails[name])
    else None
  }

  datatype Owner = ClientOwner(clientId: string) | UserOwner(name: string)

  function Resolve(w: World, owner: Owner): Option<Entity> {
    match owner
    case ClientOwner(c) => if c in w.clients then Some(ClientEntity(w.clients[c].id)) else None
    case UserOwner(name) => (match UserId(w, name) case Some(id) => Some(UserEntity(id)) case None => None)
  }

  function ListRoles(w: World, app: Id): seq<Row> {
    Take(SortByName(ActiveOf(w.roles, app)), LIMIT)
  }

  function ListPermissions(w: World, app: Id): seq<Row> {
    Take(ActiveOf(w.permissions, app), LIMIT)
  }

  function ListedRole(w: World): Option<Id> {
    if MANAGEMENT in w.apps then FirstNamed(ListRoles(w, w.apps[MANAGEMENT].id), ADMIN) else None
  }

  function ListedPermission(w: World): Option<Id> {
    if MANAGEMENT in w.apps then FirstNamed(ListPermissions(w, w.apps[MANAGEMENT].id), ANY) else None
  }

  /** The role `ensure_role` returns: the listed one, or else the one it has just created. */
  function AdminRole(w: World): Option<Id> {
    if ListedRole(w).Some? then ListedRole(w)
    else if MANAGEMENT in w.apps then LastNamed(ActiveOf(w.roles, w.apps[MANAGEMENT].id), ADMIN)
    else None
  }

  function AnyPermission(w: World): Option<Id> {
    if ListedPermission(w).Some? then ListedPermission(w)
    else if MANAGEMENT in w.apps then LastNamed(ActiveOf(w.permissions, w.apps[MANAGEMENT].id), ANY)
    else None
  }

  // ---------------------------------------------------------------- tasks

  datatype ClientSpec = ClientSpec(
    clientId: string, name: string, uri: string, scopes: seq<string>, profile: Profile, app: string)

  function MakeClient(id: Id, app: Id, spec: ClientSpec): Client {
    Client(id, app, spec.clientId, spec.name, spec.uri, spec.scopes, spec.profile, [spec.uri + "/callback"])
  }

  datatype Task =
    | AppTask(name: string, uri: string)
    | ClientTask(spec: ClientSpec)
    | MasterTask(owner: Owner)
    | RootTask(owner: Owner)
    | StoreTask(owner: Owner)
    | UserTask(user: string)
    | DeviceTask(user: string, device: string, publicKey: string, address: string)
    | RoleTask
    | PermissionTask
    | RolePermissionTask
    | UserRoleTask(user: string)

  predicate Done(t: Task, w: World) {
    match t
    case AppTask(_, uri) => uri in w.apps
    case ClientTask(spec) =>
      && spec.app in w.apps
      && spec.clientId in w.clients
      && w.clients[spec.clientId] == MakeClient(w.clients[spec.clientId].id, w.apps[spec.app].id, spec)
    case MasterTask(owner) => var e := Resolve(w, owner); e.Some? && (e.value, None) in w.stored
    case RootTask(owner) => var e := Resolve(w, owner); e.Some? && e.value in w.roots
    case StoreTask(owner) =>
      var e := Resolve(w, owner); e.Some? && e.value in w.roots && (e.value, Some(w.roots[e.value])) in w.stored
    case UserTask(user) => UserId(w, user).Some?
    case DeviceTask(_, _, _, _) => w.devices != []
    case RoleTask => ListedRole(w).Some?
    case PermissionTask => ListedPermission(w).Some?
    case RolePermissionTask =>
      ListedRole(w).Some? && ListedPermission(w).Some? &&
      (ListedRole(w).value, ListedPermission(w).value) in w.rolePermissions
    case UserRoleTask(user) =>
      && ListedRole(w).Some? && UserId(w, user).Some?
      && (w.apps[MANAGEMENT].id, UserId(w, user).value, ListedRole(w).value) in w.userRoles
  }

  /** What the task builds on is there. */
  predicate Ready(t: Task, w: World) {
    match t
    case AppTask(_, _) => true
    case ClientTask(spec) => spec.app in w.apps
    case MasterTask(owner) => Resolve(w, owner).Some?
    case RootTask(owner) => Resolve(w, owner).Some?
    case StoreTask(owner) => Resolve(w, owner).Some? && Resolve(w, owner).value in w.roots
    case UserTask(_) => true
    case DeviceTask(user, _, _, _) => UserId(w, user).Some?
    case RoleTask => MANAGEMENT in w.apps
    case PermissionTask => MANAGEMENT in w.apps
    case RolePermissionTask => AdminRole(w).Some? && AnyPermission(w).Some?
    case UserRoleTask(user) => MANAGEMENT in w.apps && UserId(w, user).Some? && AdminRole(w).Some?
  }

  function Write(t: Task, w: World): World
    requires Ready(t, w)
  {
    match t
    case AppTask(name, uri) => w.(next := w.next + 1, apps := w.apps[uri := App(w.next, name, uri)])
    case ClientTask(spec) =>
      if spec.clientId in w.clients then
        w.(clients := w.clients[spec.clientId := MakeClient(w.clients[spec.clientId].id, w.apps[spec.app].id, spec)])
      else
        w.(next := w.next + 1, clients := w.clients[spec.clientId := MakeClient(w.next, w.apps[spec.app].id, spec)])
    case MasterTask(owner) => w.(stored := w.stored + {(Resolve(w, owner).value, None)})
    case RootTask(owner) => w.(nextRoot := w.nextRoot + 1, roots := w.roots[Resolve(w, owner).value := w.nextRoot])
    case StoreTask(owner) =>
      var e := Resolve(w, owner).value;
      w.(stored := w.stored + {(e, Some(w.roots[e]))})
    case UserTask(user) => w.(next := w.next + 1, users := w.users + {w.next}, handles := w.handles[user := w.next])
    case DeviceTask(user, device, publicKey, address) =>
      w.(devices := w.devices + [Device(UserId(w, user).value, device, publicKey, address, true)])
    case RoleTask => w.(next := w.next + 1, roles := w.roles + [Row(w.next, w.apps[MANAGEMENT].id, ADMIN, true)])
    case PermissionTask =>
      w.(next := w.next + 1, permissions := w.permissions + [Row(w.next, w.apps[MANAGEMENT].id, ANY, true)])
    case RolePermissionTask => w.(rolePermissions := w.rolePermissions + {(AdminRole(w).value, AnyPermission(w).value)})
    case UserRoleTask(user) =>
      w.(userRoles := w.userRoles + {(w.apps[MANAGEMENT].id, UserId(w, user).value, AdminRole(w).value)})
  }

  function Do(t: Task, w: World): World {
    if Done(t, w) || !Ready(t, w) then w else Write(t, w)
  }

  function Perform(tasks: seq<Task>, w: World): World {
    if tasks == [] then w else Perform(tasks[1..], Do(tasks[0], w))
  }

  lemma {:induction false} PerformConcat(a: seq<Task>, b: seq<Task>, w: World)
    ensures Perform(a + b, w) == Perform(b, Perform(a, w))
  {
    if a == [] {
      assert a + b == b;
    } else {
      assert (a + b)[1..] == a[1..] + b;
      PerformConcat(a[1..], b, Do(a[0], w));
    }
  }

  // ---------------------------------------------------------------- what every task keeps

  /** Rows stay, and lookups that found something find the same. */
  predicate Kept(w: World, v: World) {
    && w.next <= v.next
    && (forall uri :: uri in w.apps ==> uri in v.apps && v.apps[uri] == w.apps[uri])
    && (forall c :: c in w.clients ==> c in v.clients && v.clients[c].id == w.clients[c].id)
    && w.users <= v.users
    && (forall u :: u in w.handles ==> u in v.handles && v.handles[u] == w.handles[u])
    && (forall u :: u in v.handles && u !in w.handles ==> UserId(w, u) == None)
    && w.emails == v.emails
    && w.devices <= v.devices && w.roles <= v.roles && w.permissions <= v.permissions
    && w.rolePermissions <= v.rolePermissions && w.userRoles <= v.userRoles
    && (forall e :: e in w.roots ==> e in v.roots && v.roots[e] == w.roots[e])
    && w.stored <= v.stored
  }

  lemma AppRowKeeps(w: World, app: App)
    requires Valid(w) && app.id == w.next && app.uri !in w.apps
    ensures var v := w.(next := w.next + 1, apps := w.apps[app.uri := app]); Valid(v) && Kept(w, v)
  {
  }

  lemma ClientRowKeeps(w: World, c: Client, next: Id)
    requires Valid(w) && w.next <= next && c.id < next && (c.clientId in w.clients ==> w.clients[c.clientId].id == c.id)
    ensures var v := w.(next := next, clients := w.clients[c.clientId := c]); Valid(v) && Kept(w, v)
  {
  }

  lemma ClientWriteKeeps(spec: ClientSpec, w: World)
    requires Valid(w) && spec.app in w.apps
    ensures var v := Write(ClientTask(spec), w); Valid(v) && Kept(w, v)
  {
    if spec.clientId in w.clients {
      ClientRowKeeps(w, MakeClient(w.clients[spec.clientId].id, w.apps[spec.app].id, spec), w.next);
    } else {
      ClientRowKeeps(w, MakeClient(w.next, w.apps[spec.app].id, spec), w.next + 1);
    }
  }

  lemma UserRowKeeps(w: World, name: string)
    requires Valid(w) && UserId(w, name) == None
    ensures var v := w.(next := w.next + 1, users := w.users + {w.next}, handles := w.handles[name := w.next]);
            Valid(v) && Kept(w, v)
  {
  }

  lemma StoredKeeps(w: World, e: Entity, path: Option<nat>)
    requires Valid(w) && e.id < w.next
    ensures var v := w.(stored := w.stored + {(e, path)}); Valid(v) && Kept(w, v)
  {
  }

  lemma RootKeeps(w: World, e: Entity)
    requires Valid(w) && e.id < w.next && e !in w.roots
    ensures var v := w.(nextRoot := w.nextRoot + 1, roots := w.roots[e := w.nextRoot]); Valid(v) && Kept(w, v)
  {
  }

  lemma KeyWriteKeeps(t: Task, w: World)
    requires (t.MasterTask? || t.RootTask? || t.StoreTask?) && Valid(w) && !Done(t, w) && Ready(t, w)
    ensures Valid(Write(t, w)) && Kept(w, Write(t, w))
  {
    ResolvedIds(w, t.owner);
    var e := Resolve(w, t.owner).value;
    match t
    case MasterTask(_) => StoredKeeps(w, e, None);
    case RootTask(_) => RootKeeps(w, e);
    case StoreTask(_) => StoredKeeps(w, e, Some(w.roots[e]));
  }

  lemma RoleRowKeeps(w: World, row: Row)
    requires Valid(w) && row.app < w.next
    ensures var v := w.(next := w.next + 1, roles := w.roles + [row]); Valid(v) && Kept(w, v)
  {
  }

  lemma PermissionRowKeeps(w: World, row: Row)
    requires Valid(w) && row.app < w.next
    ensures var v := w.(next := w.next + 1, permissions := w.permissions + [row]); Valid(v) && Kept(w, v)
  {
  }

  lemma RelationKeeps(w: World, devices: seq<Device>, rolePermissions: set<(Id, Id)>, userRoles: set<(Id, Id, Id)>)
    requires Valid(w) && w.devices <= devices && w.rolePermissions <= rolePermissions && w.userRoles <= userRoles
    ensures var v := w.(devices := devices, rolePermissions := rolePermissions, userRoles := userRoles);
            Valid(v) && Kept(w, v)
  {
  }

  lemma WriteKeeps(t: Task, w: World)
    requires Valid(w) && !Done(t, w) && Ready(t, w)
    ensures Valid(Write(t, w)) && Kept(w, Write(t, w))
  {
    match t
    case AppTask(name, uri) => AppRowKeeps(w, App(w.next, name, uri));
    case ClientTask(spec) => ClientWriteKeeps(spec, w);
    case MasterTask(_) => KeyWriteKeeps(t, w);
    case RootTask(_) => KeyWriteKeeps(t, w);
    case StoreTask(_) => KeyWriteKeeps(t, w);
    case UserTask(user) => UserRowKeeps(w, user);
    case RoleTask => RoleRowKeeps(w, Row(w.next, w.apps[MANAGEMENT].id, ADMIN, true));
    case PermissionTask => PermissionRowKeeps(w, Row(w.next, w.apps[MANAGEMENT].id, ANY, true));
    case _ => RelationKeeps(w, Write(t, w).devices, Write(t, w).rolePermissions, Write(t, w).userRoles);
  }

  lemma DoKeeps(t: Task, w: World)
    requires Valid(w)
    ensures Valid(Do(t, w)) && Kept(w, Do(t, w))
  {
    if Done(t, w) || !Ready(t, w) {
      RelationKeeps(w, w.devices, w.rolePermissions, w.userRoles);
    } else {
      WriteKeeps(t, w);
    }
  }

  lemma ResolvedIds(w: World, owner: Owner)
    requires Valid(w) && Resolve(w, owner).Some?
    ensures Resolve(w, owner).value.id < w.next
  {
  }

  // ---------------------------------------------------------------- when the lists are long enough

  /** Fewer than a thousand management roles sort before "admin". */
  predicate RolesFit(w: World) {
    MANAGEMENT in w.apps ==> Before(ActiveOf(w.roles, w.apps[MANAGEMENT].id), ADMIN) < LIMIT
  }

  /** "*" is among the first thousand management permissions, or would be if it were created. */
  predicate PermissionsFit(w: World) {
    MANAGEMENT in w.apps ==> Roomy(ActiveOf(w.permissions, w.apps[MANAGEMENT].id), ANY, LIMIT)
  }

  predicate Roomy(rows: seq<Row>, name: string, limit: nat) {
    FirstNamed(Take(rows, limit), name).Some? || (FirstNamed(rows, name) == None && |rows| < limit)
  }

  predicate Fits(w: World) {
    RolesFit(w) && PermissionsFit(w)
  }

  lemma RowAppended(rows: seq<Row>, id: Id, app: Id, name: string, limit: nat)
    ensures var active := ActiveOf(rows, app); var longer := ActiveOf(rows + [Row(id, app, name, true)], app);
            && Before(longer, name) == Before(active, name)
            && LastNamed(longer, name).Some?
            && FirstNamed(longer, name).Some?
            && (FirstNamed(Take(active, limit), name) == None ==>
                  (FirstNamed(Take(longer, limit), name).Some? <==> Roomy(active, name, limit)) &&
                  (Roomy(longer, name, limit) <==> Roomy(active, name, limit)))
  {
    var row := Row(id, app, name, true);
    var active := ActiveOf(rows, app);
    ActiveAppend(rows, row, app);
    var longer := active + [row];
    assert ActiveOf(rows + [row], app) == longer;
    BeforeAppend(active, row, name);
    LessIrreflexive(name);
    FirstAppend(active, row, name);
    if |active| < limit {
      assert Take(longer, limit) == longer;
    } else {
      assert Take(longer, limit) == Take(active, limit);
    }
  }

  lemma RoleWritten(w: World)
    requires MANAGEMENT in w.apps && ListedRole(w) == None
    ensures var v := Write(RoleTask, w);
            AdminRole(v).Some? && (ListedRole(v).Some? <==> RolesFit(w)) &&
            (RolesFit(v) <==> RolesFit(w)) && PermissionsFit(v) == PermissionsFit(w)
  {
    var app := w.apps[MANAGEMENT].id;
    var v := Write(RoleTask, w);
    RowAppended(w.roles, w.next, app, ADMIN, LIMIT);
    FoundInListing(ActiveOf(v.roles, app), ADMIN, LIMIT);
  }

  lemma PermissionWritten(w: World)
    requires MANAGEMENT in w.apps && ListedPermission(w) == None
    ensures var v := Write(PermissionTask, w);
            AnyPermission(v).Some? && (ListedPermission(v).Some? <==> PermissionsFit(w)) &&
            (PermissionsFit(v) <==> PermissionsFit(w)) && RolesFit(v) == RolesFit(w)
  {
    RowAppended(w.permissions, w.next, w.apps[MANAGEMENT].id, ANY, LIMIT);
  }

  lemma UnlistedRole(w: World)
    requires !RolesFit(w)
    ensures ListedRole(w) == None
  {
    FoundInListing(ActiveOf(w.roles, w.apps[MANAGEMENT].id), ADMIN, LIMIT);
  }

  lemma AppFits(w: World, name: string, uri: string)
    requires Valid(w) && uri !in w.apps
    ensures var v := Write(AppTask(name, uri), w);
            (RolesFit(v) <==> RolesFit(w)) && (PermissionsFit(v) <==> PermissionsFit(w))
  {
    if uri == MANAGEMENT {
      NoneActive(w.roles, w.next);
      NoneActive(w.permissions, w.next);
    }
  }

  lemma DoFits(t: Task, w: World)
    requires Valid(w)
    ensures RolesFit(Do(t, w)) <==> RolesFit(w)
    ensures PermissionsFit(Do(t, w)) <==> PermissionsFit(w)
  {
    if !Done(t, w) && Ready(t, w) {
      match t
      case AppTask(name, uri) => AppFits(w, name, uri);
      case RoleTask => RoleWritten(w);
      case PermissionTask => PermissionWritten(w);
      case _ =>
        var v := Write(t, w);
        assert v.apps == w.apps && v.roles == w.roles && v.permissions == w.permissions;
    }
  }

  // ---------------------------------------------------------------- done stays done

  /** Two tasks about one client ask for the same. */
  predicate Compatible(t: Task, u: Task) {
    t.ClientTask? && u.ClientTask? && t.spec.clientId == u.spec.clientId ==> t == u
  }

  lemma LookupsKept(w: World, v: World)
    requires Kept(w, v)
    ensures forall name :: UserId(w, name).Some? ==> UserId(v, name) == UserId(w, name)
    ensures forall owner :: Resolve(w, owner).Some? ==> Resolve(v, owner) == Resolve(w, owner)
  {
  }

  lemma ListingsKept(u: Task, w: World)
    requires Valid(w)
    ensures ListedRole(w).Some? ==> ListedRole(Do(u, w)) == ListedRole(w)
    ensures ListedPermission(w).Some? ==> ListedPermission(Do(u, w)) == ListedPermission(w)
  {
    if !Done(u, w) && Ready(u, w) {
      var v := Write(u, w);
      match u
      case RoleTask => assert v.permissions == w.permissions && v.apps == w.apps;
      case PermissionTask => assert v.roles == w.roles && v.apps == w.apps;
      case _ =>
        assert v.roles == w.roles && v.permissions == w.permissions;
        assert MANAGEMENT in w.apps ==> v.apps[MANAGEMENT] == w.apps[MANAGEMENT];
    }
  }

  lemma ClientStable(t: Task, u: Task, w: World)
    requires Valid(w) && t.ClientTask? && Done(t, w) && Compatible(t, u)
    ensures Done(t, Do(u, w))
  {
    var v := Do(u, w);
    DoKeeps(u, w);
    assert v.apps[t.spec.app] == w.apps[t.spec.app];
    if u != t {
      OtherClients(t.spec.clientId, u, w);
    }
  }

  lemma OtherClients(c: string, u: Task, w: World)
    requires c in w.clients && !(u.ClientTask? && u.spec.clientId == c)
    ensures c in Do(u, w).clients && Do(u, w).clients[c] == w.clients[c]
  {
  }

  lemma DoStable(t: Task, u: Task, w: World)
    requires Valid(w) && Done(t, w) && Compatible(t, u)
    ensures Done(t, Do(u, w))
  {
    if t.ClientTask? {
      ClientStable(t, u, w);
    } else {
      DoKeeps(u, w);
      LookupsKept(w, Do(u, w));
      ListingsKept(u, w);
      KeptDone(t, w, Do(u, w));
    }
  }

  lemma KeptDone(t: Task, w: World, v: World)
    requires !t.ClientTask? && Done(t, w) && Kept(w, v)
    requires forall name :: UserId(w, name).Some? ==> UserId(v, name) == UserId(w, name)
    requires forall owner :: Resolve(w, owner).Some? ==> Resolve(v, owner) == Resolve(w, owner)
    requires ListedRole(w).Some? ==> ListedRole(v) == ListedRole(w)
    requires ListedPermission(w).Some? ==> ListedPermission(v) == ListedPermission(w)
    ensures Done(t, v)
  {
  }

  // ---------------------------------------------------------------- tasks in order

  /** What makes the task succeed for good: its prerequisites are done, not only present. */
  predicate Prepared(t: Task, w: World) {
    match t
    case RolePermissionTask => Done(RoleTask, w) && Done(PermissionTask, w)
    case UserRoleTask(user) => Done(RoleTask, w) && Done(UserTask(user), w)
    case _ => Ready(t, w)
  }

  lemma DoDone(t: Task, w: World)
    requires Valid(w) && Fits(w) && Prepared(t, w)
    ensures Done(t, Do(t, w))
  {
    if !Done(t, w) {
      match t
      case RoleTask => RoleWritten(w);
      case PermissionTask => PermissionWritten(w);
      case _ => WriteDone(t, w);
    }
  }

  lemma WriteDone(t: Task, w: World)
    requires Valid(w) && !Done(t, w) && Prepared(t, w) && !t.RoleTask? && !t.PermissionTask?
    ensures Ready(t, w) && Done(t, Write(t, w))
  {
    if t.RolePermissionTask? || t.UserRoleTask? {
      RelationDone(t, w);
    } else if t.MasterTask? || t.RootTask? || t.StoreTask? {
      KeyDone(t, w);
    }
  }

  lemma RelationDone(t: Task, w: World)
    requires (t.RolePermissionTask? || t.UserRoleTask?) && !Done(t, w) && Prepared(t, w)
    ensures Ready(t, w) && Done(t, Write(t, w))
  {
    var v := Write(t, w);
    assert v.apps == w.apps && v.roles == w.roles && v.permissions == w.permissions;
    assert v.handles == w.handles && v.emails == w.emails && v.users == w.users;
    assert ListedRole(v) == ListedRole(w) && ListedPermission(v) == ListedPermission(w);
  }

  lemma KeyDone(t: Task, w: World)
    requires (t.MasterTask? || t.RootTask? || t.StoreTask?) && !Done(t, w) && Ready(t, w)
    ensures Done(t, Write(t, w))
  {
    var v := Write(t, w);
    assert v.clients == w.clients && v.handles == w.handles && v.emails == w.emails && v.users == w.users;
    assert Resolve(v, t.owner) == Resolve(w, t.owner);
  }

  /** The list up to a task provides what the task builds on. */
  predicate Supports(before: seq<Task>, t: Task) {
    match t
    case AppTask(_, _) => true
    case ClientTask(spec) => HasApp(before, spec.app)
    case MasterTask(owner) => HasOwner(before, owner)
    case RootTask(owner) => HasOwner(before, owner)
    case StoreTask(owner) => RootTask(owner) in before
    case UserTask(_) => true
    case DeviceTask(user, _, _, _) => UserTask(user) in before
    case RoleTask => HasApp(before, MANAGEMENT)
    case PermissionTask => HasApp(before, MANAGEMENT)
    case RolePermissionTask => RoleTask in before && PermissionTask in before
    case UserRoleTask(user) => RoleTask in before && UserTask(user) in before
  }

  predicate HasApp(tasks: seq<Task>, uri: string) {
    exists i :: 0 <= i < |tasks| && tasks[i].AppTask? && tasks[i].uri == uri
  }

  predicate HasOwner(tasks: seq<Task>, owner: Owner) {
    match owner
    case ClientOwner(c) => exists i :: 0 <= i < |tasks| && tasks[i].ClientTask? && tasks[i].spec.clientId == c
    case UserOwner(name) => UserTask(name) in tasks
  }

  predicate Ordered(tasks: seq<Task>) {
    forall i :: 0 <= i < |tasks| ==> Supports(tasks[..i], tasks[i])
  }

  predicate AllCompatible(tasks: seq<Task>) {
    forall i, j :: 0 <= i < |tasks| && 0 <= j < |tasks| ==> Compatible(tasks[i], tasks[j])
  }

  predicate AllDone(tasks: seq<Task>, w: World) {
    forall i :: 0 <= i < |tasks| ==> Done(tasks[i], w)
  }

  lemma SupportedPrepared(before: seq<Task>, t: Task, w: World)
    requires AllDone(before, w) && Supports(before, t)
    ensures Prepared(t, w)
  {
    match t
    case StoreTask(owner) => assert Done(RootTask(owner), w);
    case DeviceTask(user, _, _, _) => assert Done(UserTask(user), w);
    case _ =>
  }

  // ---------------------------------------------------------------- interruption and repetition

  lemma PerformSnoc(tasks: seq<Task>, k: nat, w: World)
    requires k < |tasks|
    ensures Perform(tasks[..k + 1], w) == Do(tasks[k], Perform(tasks[..k], w))
  {
    assert tasks[..k + 1] == tasks[..k] + [tasks[k]];
    PerformConcat(tasks[..k], [tasks[k]], w);
    var v := Perform(tasks[..k], w);
    assert Perform([tasks[k]], v) == Perform([tasks[k]][1..], Do(tasks[k], v)) == Do(tasks[k], v);
  }

  lemma {:induction false} PerformKeeps(tasks: seq<Task>, w: World)
    requires Valid(w)
    ensures Valid(Perform(tasks, w))
    ensures RolesFit(Perform(tasks, w)) <==> RolesFit(w)
    ensures PermissionsFit(Perform(tasks, w)) <==> PermissionsFit(w)
  {
    if tasks != [] {
      DoKeeps(tasks[0], w);
      DoFits(tasks[0], w);
      PerformKeeps(tasks[1..], Do(tasks[0], w));
    }
  }

  lemma OneMoreDone(before: seq<Task>, t: Task, w: World)
    requires Valid(w) && Fits(w) && AllDone(before, w) && Supports(before, t)
    requires forall i :: 0 <= i < |before| ==> Compatible(before[i], t)
    ensures AllDone(before + [t], Do(t, w))
  {
    SupportedPrepared(before, t, w);
    DoDone(t, w);
    forall i | 0 <= i < |before| ensures Done(before[i], Do(t, w)) {
      DoStable(before[i], t, w);
    }
  }

  /** One task more, performed after the others, leaves them all done. */
  lemma {:induction false} SnocDone(tasks: seq<Task>, k: nat, w: World)
    requires Valid(w) && Fits(w) && AllCompatible(tasks) && k < |tasks|
    requires Supports(tasks[..k], tasks[k]) && AllDone(tasks[..k], Perform(tasks[..k], w))
    ensures AllDone(tasks[..k + 1], Perform(tasks[..k + 1], w))
  {
    var before, v := tasks[..k], Perform(tasks[..k], w);
    assert Valid(v) && Fits(v) by {
      PerformKeeps(before, w);
    }
    PerformSnoc(tasks, k, w);
    OneMoreDone(before, tasks[k], v);
    assert tasks[..k + 1] == before + [tasks[k]];
  }

  /** Wherever a run is cut off, all it got to is done. */
  lemma {:induction false} PrefixDone(tasks: seq<Task>, k: nat, w: World)
    requires Valid(w) && Fits(w) && Ordered(tasks) && AllCompatible(tasks) && k <= |tasks|
    ensures AllDone(tasks[..k], Perform(tasks[..k], w))
  {
    if k > 0 {
      PrefixDone(tasks, k - 1, w);
      SnocDone(tasks, k - 1, w);
    }
  }

  lemma {:induction false} NothingLeft(tasks: seq<Task>, w: World)
    requires AllDone(tasks, w)
    ensures Perform(tasks, w) == w
  {
    if tasks != [] {
      assert Do(tasks[0], w) == w;
      NothingLeft(tasks[1..], w);
    }
  }

  lemma StartOver(a: seq<Task>, b: seq<Task>, w: World)
    requires AllDone(a, Perform(a, w))
    ensures Perform(a + b, Perform(a, w)) == Perform(a + b, w)
  {
    var v := Perform(a, w);
    PerformConcat(a, b, v);
    PerformConcat(a, b, w);
    NothingLeft(a, v);
  }

  /** Starting over after an interruption at any write ends exactly where the uninterrupted
      run would have ended. */
  lemma Resumes(tasks: seq<Task>, k: nat, w: World)
    requires Valid(w) && Fits(w) && Ordered(tasks) && AllCompatible(tasks) && k <= |tasks|
    ensures Perform(tasks, Perform(tasks[..k], w)) == Perform(tasks, w)
  {
    PrefixDone(tasks, k, w);
    StartOver(tasks[..k], tasks[k..], w);
    assert tasks[..k] + tasks[k..] == tasks;
  }

  /** Runs cut off after so many tasks, one after the other. */
  function Attempts(tasks: seq<Task>, cuts: seq<nat>, w: World): World {
    if cuts == [] then w
    else Attempts(tasks, cuts[1..], Perform(if cuts[0] <= |tasks| then tasks[..cuts[0]] else tasks, w))
  }

  lemma {:induction false} ResumesAlways(tasks: seq<Task>, cuts: seq<nat>, w: World)
    requires Valid(w) && Fits(w) && Ordered(tasks) && AllCompatible(tasks)
    ensures Perform(tasks, Attempts(tasks, cuts, w)) == Perform(tasks, w)
    ensures AllDone(tasks, Perform(tasks, w))
    decreases |cuts|
  {
    PrefixDone(tasks, |tasks|, w);
    assert tasks[..|tasks|] == tasks;
    if cuts != [] {
      var k := if cuts[0] <= |tasks| then cuts[0] else |tasks|;
      Resumes(tasks, k, w);
      PerformKeeps(tasks[..k], w);
      ResumesAlways(tasks, cuts[1..], Perform(tasks[..k], w));
    }
  }

  /** While a list is too long, the row is not found and one is added. */
  lemma RowsGrow(t: Task, w: World)
    requires Valid(w)
    ensures |Do(t, w).roles| >= |w.roles| && |Do(t, w).permissions| >= |w.permissions|
    ensures t == RoleTask && !RolesFit(w) ==> |Do(t, w).roles| == |w.roles| + 1
    ensures t == PermissionTask && !PermissionsFit(w) ==> |Do(t, w).permissions| == |w.permissions| + 1
  {
    if !RolesFit(w) { UnlistedRole(w); }
  }

  lemma {:induction false} RolesGrow(tasks: seq<Task>, w: World)
    requires Valid(w) && !RolesFit(w)
    ensures |Perform(tasks, w).roles| >= |w.roles| + if RoleTask in tasks then 1 else 0
  {
    if tasks != [] {
      StillTooLong(tasks[0], w);
      RolesGrow(tasks[1..], Do(tasks[0], w));
      assert RoleTask in tasks ==> tasks[0] == RoleTask || RoleTask in tasks[1..];
    }
  }

  lemma {:induction false} PermissionsGrow(tasks: seq<Task>, w: World)
    requires Valid(w) && !PermissionsFit(w)
    ensures |Perform(tasks, w).permissions| >= |w.permissions| + if PermissionTask in tasks then 1 else 0
  {
    if tasks != [] {
      StillTooLong(tasks[0], w);
      PermissionsGrow(tasks[1..], Do(tasks[0], w));
      assert PermissionTask in tasks ==> tasks[0] == PermissionTask || PermissionTask in tasks[1..];
    }
  }

  lemma StillTooLong(t: Task, w: World)
    requires Valid(w)
    ensures Valid(Do(t, w)) && RolesFit(Do(t, w)) == RolesFit(w) && PermissionsFit(Do(t, w)) == PermissionsFit(w)
    ensures |Do(t, w).roles| >= |w.roles| && |Do(t, w).permissions| >= |w.permissions|
    ensures t == RoleTask && !RolesFit(w) ==> |Do(t, w).roles| == |w.roles| + 1
    ensures t == PermissionTask && !PermissionsFit(w) ==> |Do(t, w).permissions| == |w.permissions| + 1
  {
    DoKeeps(t, w);
    DoFits(t, w);
    RowsGrow(t, w);
  }

  /** A completed run leaves everything done, and one more run changes nothing, exactly when
      the lists were long enough to begin with. */
  lemma RepeatsIff(tasks: seq<Task>, w: World)
    requires Valid(w) && Ordered(tasks) && AllCompatible(tasks) && RoleTask in tasks && PermissionTask in tasks
    ensures var v := Perform(tasks, w); (AllDone(tasks, v) <==> Fits(w)) && (Perform(tasks, v) == v <==> Fits(w))
  {
    var v := Perform(tasks, w);
    PerformKeeps(tasks, w);
    if Fits(w) {
      ResumesAlways(tasks, [], w);
      NothingLeft(tasks, v);
    } else {
      if !RolesFit(w) { RolesGrow(tasks, v); } else { PermissionsGrow(tasks, v); }
      if AllDone(tasks, v) { NothingLeft(tasks, v); }
    }
  }
}
