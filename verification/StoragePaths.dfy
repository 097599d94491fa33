/** Where the databases of a namespace live on disk. Paths are the strings that `PathBuf`
    builds on Unix; file identity is string equality of paths. */
module StoragePaths {
  import opened Text
  import opened Identifiers

  datatype Namespace = Namespace(subject: string, application: Uuid)

  /** The check made by both `catalog_path` and `database_path`. */
  predicate ValidNamespace(ns: Namespace) {
    && ns.subject != "" && ns.subject != "." && ns.subject != ".."
    && (forall i :: 0 <= i < |ns.subject| ==> IsSubjectChar(ns.subject[i]))
    && !IsNil(ns.application)
  }

  /** A part of a path that names an entry of the directory before it, and neither that directory
      nor the one above. */
  predicate NamesEntry(part: string) {
    Free(part, '/') && part !in {"", ".", ".."}
  }

  /** A namespace is valid exactly when its subject names an entry and consists of letters,
      digits, '-', '_' and '.', and its application's id is not all zeros. */
  lemma ValidNamespaceIff(ns: Namespace)
    ensures ValidNamespace(ns) <==>
            && NamesEntry(ns.subject) && (forall i :: 0 <= i < |ns.subject| ==> IsSubjectChar(ns.subject[i]))
            && UuidText(ns.application) != "00000000-0000-0000-0000-000000000000"
  {
    var text, zeros := UuidText(ns.application), "00000000-0000-0000-0000-000000000000";
    assert forall i :: 0 <= i < 36 ==> zeros[i] == if IsDashAt(i) then '-' else '0';
    if IsNil(ns.application) {
      assert forall i :: 0 <= i < 36 ==> text[i] == zeros[i];
      assert text == zeros;
    } else {
      var j :| 0 <= j < 32 && ns.application[j] != 0;
      assert text[TextPosition(j)] == HexDigit(ns.application[j]);
      assert text[TextPosition(j)] != zeros[TextPosition(j)];
    }
  }

  /** `Path::join`: an absolute part replaces the base; otherwise one separator is put in
      between unless the base is empty or already ends with one. */
  function PathJoin(base: string, part: string): string {
    if part != "" && part[0] == '/' then part
    else if base == "" || base[|base| - 1] == '/' then base + part
    else base + "/" + part
  }

  /** `PathBuf::set_extension`: cuts the file name after its stem, then appends. The stem
      ends before the last dot, unless that dot is the first character of the name. */
  function SetExtension(path: string, extension: string): string {
    var name := path[LastIndexOf(path, '/') + 1..];
    var dot := LastIndexOf(name, '.');
    var kept := if dot <= 0 then path else path[..LastIndexOf(path, '/') + 1 + dot];
    if extension == "" then kept else kept + "." + extension
  }

  function Folder(root: string, ns: Namespace): string {
    PathJoin(PathJoin(PathJoin(root, "databases"), ns.subject), UuidText(ns.application))
  }

  /** `catalog_path`; `None` is the error "invalid storage namespace". */
  function CatalogPath(root: string, ns: Namespace): Option<string> {
    if ValidNamespace(ns) then Some(PathJoin(Folder(root, ns), "catalog.json")) else None
  }

  /** `database_path`. */
  function DatabasePath(root: string, ns: Namespace, id: Uuid): Option<string> {
    if ValidNamespace(ns) then Some(PathJoin(Folder(root, ns), UuidText(id) + ".redb")) else None
  }

  /** The key-value sidecar: the database path with its extension replaced. */
  function KvPath(root: string, ns: Namespace, id: Uuid): Option<string> {
    match DatabasePath(root, ns, id)
    case None => None
    case Some(path) => Some(SetExtension(path, "kv.redb"))
  }

  /** The temporary file that `write_catalog` renames over the catalog. */
  function TempPath(root: string, ns: Namespace, token: Uuid): Option<string> {
    match CatalogPath(root, ns)
    case None => None
    case Some(path) => Some(SetExtension(path, UuidText(token) + ".tmp"))
  }

  datatype File = CatalogFile | DatabaseFile(id: Uuid) | KvFile(id: Uuid) | TempFile(token: Uuid)

  function FilePath(root: string, ns: Namespace, f: File): Option<string> {
    match f
    case CatalogFile => CatalogPath(root, ns)
    case DatabaseFile(id) => DatabasePath(root, ns, id)
    case KvFile(id) => KvPath(root, ns, id)
    case TempFile(token) => TempPath(root, ns, token)
  }

  // ---------------------------------------------------------------- the shape of the paths

  function FileName(f: File): (s: string)
    ensures |s| == (match f case CatalogFile => 12 case DatabaseFile(_) => 41
                    case KvFile(_) => 44 case TempFile(_) => 48)
    ensures Free(s, '/')
  {
    match f
    case CatalogFile => "catalog.json"
    case DatabaseFile(id) => UuidText(id) + "." + "redb"
    case KvFile(id) => UuidText(id) + "." + "kv.redb"
    case TempFile(token) => "catalog" + "." + (UuidText(token) + ".tmp")
  }

  lemma FileNameInjective(f: File, g: File)
    requires FileName(f) == FileName(g)
    ensures f == g
  {
    match f
    case CatalogFile =>
    case DatabaseFile(id) =>
      assert FileName(f)[..36] == UuidText(id) && FileName(g)[..36] == UuidText(g.id);
      UuidTextInjective(id, g.id);
    case KvFile(id) =>
      assert FileName(f)[..36] == UuidText(id) && FileName(g)[..36] == UuidText(g.id);
      UuidTextInjective(id, g.id);
    case TempFile(token) =>
      assert FileName(f)[8..44] == UuidText(token) && FileName(g)[8..44] == UuidText(g.token);
      UuidTextInjective(token, g.token);
  }

  /** Where the two separators of a dotted file name in a folder are. */
  lemma {:induction false} Separators(folder: string, stem: string, previous: string)
    requires Free(stem, '/') && Free(previous, '/') && Free(previous, '.')
    ensures var name := stem + "." + previous; var path := folder + "/" + name;
            && LastIndexOf(path, '/') == |folder| && path[|folder| + 1..] == name
            && LastIndexOf(name, '.') == |stem| && path[..|folder| + 1 + |stem|] == folder + "/" + stem
  {
    LastIndexAfter(folder, stem + "." + previous, '/');
    LastIndexAfter(stem, previous, '.');
  }

  lemma {:induction false} Regroup(folder: string, stem: string, extension: string)
    ensures folder + "/" + stem + "." + extension == folder + "/" + (stem + "." + extension)
  {
  }

  lemma {:induction false} SetExtensionShape(folder: string, stem: string, previous: string, extension: string)
    requires Free(stem, '/') && stem != "" && Free(previous, '/') && Free(previous, '.') && extension != ""
    ensures SetExtension(folder + "/" + (stem + "." + previous), extension) == folder + "/" + (stem + "." + extension)
  {
    Separators(folder, stem, previous);
    Regroup(folder, stem, extension);
  }

  lemma FolderShape(root: string, ns: Namespace)
    requires ValidNamespace(ns)
    ensures Folder(root, ns) == PathJoin(root, "databases") + "/" + ns.subject + "/" + UuidText(ns.application)
    ensures Free(ns.subject, '/') && Free(UuidText(ns.application), '/')
  {
    var base := PathJoin(root, "databases");
    assert base[|base| - 1] == 's';
    assert IsSubjectChar(ns.subject[|ns.subject| - 1]) && IsSubjectChar(ns.subject[0]);
    var mid := base + "/" + ns.subject;
    assert PathJoin(base, ns.subject) == mid && mid[|mid| - 1] == ns.subject[|ns.subject| - 1];
    assert UuidText(ns.application)[0] != '/';
  }

  lemma JoinShape(base: string, part: string)
    requires base != "" && base[|base| - 1] != '/' && part != "" && part[0] != '/'
    ensures PathJoin(base, part) == base + "/" + part
  {
  }

  lemma FolderEnd(root: string, ns: Namespace)
    requires ValidNamespace(ns)
    ensures Folder(root, ns) != "" && Folder(root, ns)[|Folder(root, ns)| - 1] != '/'
  {
    FolderShape(root, ns);
    var folder := Folder(root, ns);
    assert folder[|folder| - 1] == UuidText(ns.application)[35];
  }

  lemma CatalogShape(root: string, ns: Namespace)
    requires ValidNamespace(ns)
    ensures CatalogPath(root, ns) == Some(Folder(root, ns) + "/" + FileName(CatalogFile))
  {
    FolderEnd(root, ns);
    JoinShape(Folder(root, ns), "catalog.json");
  }

  lemma TempShape(root: string, ns: Namespace, token: Uuid)
    requires ValidNamespace(ns)
    ensures TempPath(root, ns, token) == Some(Folder(root, ns) + "/" + FileName(TempFile(token)))
  {
    CatalogShape(root, ns);
    TempExtended(Folder(root, ns), UuidText(token) + ".tmp");
  }

  lemma TempExtended(folder: string, extension: string)
    requires extension != ""
    ensures SetExtension(folder + "/" + "catalog.json", extension) == folder + "/" + ("catalog" + "." + extension)
  {
    assert "catalog.json" == "catalog" + "." + "json";
    SetExtensionShape(folder, "catalog", "json", extension);
  }

  lemma DottedRedb(stem: string)
    ensures stem + ".redb" == stem + "." + "redb"
  {
  }

  lemma DatabaseShape(root: string, ns: Namespace, id: Uuid)
    requires ValidNamespace(ns)
    ensures DatabasePath(root, ns, id) == Some(Folder(root, ns) + "/" + FileName(DatabaseFile(id)))
  {
    FolderEnd(root, ns);
    DottedRedb(UuidText(id));
    var name := FileName(DatabaseFile(id));
    assert name[0] == UuidText(id)[0];
    JoinShape(Folder(root, ns), name);
  }

  lemma UuidFree(id: Uuid)
    ensures Free(UuidText(id), '/') && UuidText(id) != ""
  {
  }

  lemma KvExtended(folder: string, stem: string)
    requires Free(stem, '/') && stem != ""
    ensures SetExtension(folder + "/" + (stem + ".redb"), "kv.redb") == folder + "/" + (stem + "." + "kv.redb")
  {
    DottedRedb(stem);
    SetExtensionShape(folder, stem, "redb", "kv.redb");
  }

  lemma KvShape(root: string, ns: Namespace, id: Uuid)
    requires ValidNamespace(ns)
    ensures KvPath(root, ns, id) == Some(Folder(root, ns) + "/" + FileName(KvFile(id)))
  {
    DatabaseShape(root, ns, id);
    UuidFree(id);
    DottedRedb(UuidText(id));
    KvExtended(Folder(root, ns), UuidText(id));
  }

  lemma FilePathShape(root: string, ns: Namespace, f: File)
    requires ValidNamespace(ns)
    ensures FilePath(root, ns, f) == Some(Folder(root, ns) + "/" + FileName(f))
  {
    match f
    case CatalogFile => CatalogShape(root, ns);
    case DatabaseFile(id) => DatabaseShape(root, ns, id);
    case KvFile(id) => KvShape(root, ns, id);
    case TempFile(token) => TempShape(root, ns, token);
  }

  /** No two files of the storage tree share a path: catalogs, databases, key-value
      sidecars and temporary files of all valid namespaces are pairwise distinct. */
  lemma FilePathInjective(root: string, ns: Namespace, f: File, ns': Namespace, f': File)
    requires ValidNamespace(ns) && ValidNamespace(ns')
    requires FilePath(root, ns, f) == FilePath(root, ns', f')
    ensures ns == ns' && f == f'
  {
    FilePathShape(root, ns, f);
    FilePathShape(root, ns', f');
    LastCutUnique(Folder(root, ns), Folder(root, ns'), FileName(f), FileName(f'), '/');
    FileNameInjective(f, f');
    FolderShape(root, ns);
    FolderShape(root, ns');
    var base := PathJoin(root, "databases");
    LastCutUnique(base + "/" + ns.subject, base + "/" + ns'.subject,
                  UuidText(ns.application), UuidText(ns'.application), '/');
    LastCutUnique(base, base, ns.subject, ns'.subject, '/');
    UuidTextInjective(ns.application, ns'.application);
  }
}
