/** Which files of an application are kept on the device in full: rules per path, the most
    specific of which wins. */
module ResidencyPolicies {
  import opened Text

  datatype Residency = Full | Passthrough

  type Rules = map<string, Residency>

  // ---------------------------------------------------------------- identifiers and paths

  predicate ValidUserSub(sub: string) {
    sub != "" && forall i :: 0 <= i < |sub| ==> IsSubjectChar(sub[i])
  }

  predicate ValidComponent(part: string) {
    part != "" && part != "." && part != ".."
  }

  predicate ValidPath(path: string) {
    path == "" ||
    (path[0] != '/' && path[|path| - 1] != '/' &&
     forall i :: 0 <= i < |Split(path, '/')| ==> ValidComponent(Split(path, '/')[i]))
  }

  function Components(path: string): seq<string> {
    if path == "" then [] else Split(path, '/')
  }

  /** Component-wise, the root being everyone's ancestor. */
  predicate Ancestor(a: string, path: string) {
    Components(a) <= Components(path)
  }

  /** `rsplit_once('/')`, of which only the part before the last slash is used. */
  function BeforeLastSlash(s: string): Option<string> {
    var i := LastIndexOf(s, '/');
    if i < 0 then None else Some(s[..i])
  }

  lemma {:induction false} CutAtLastSlash(a: string, x: string)
    requires Free(x, '/')
    ensures BeforeLastSlash(a + "/" + x) == Some(a)
  {
    LastIndexAfter(a, x, '/');
    assert (a + ['/'] + x)[..|a|] == a;
  }

  lemma {:induction false} JoinSnoc(parts: seq<string>, last: string)
    requires |parts| >= 1
    ensures Join(parts + [last], '/') == Join(parts, '/') + "/" + last
  {
    if |parts| == 1 {
      assert (parts + [last])[1..] == [last];
    } else {
      assert (parts + [last])[1..] == parts[1..] + [last];
      JoinSnoc(parts[1..], last);
    }
  }

  predicate ValidParts(parts: seq<string>) {
    forall i :: 0 <= i < |parts| ==> ValidComponent(parts[i]) && Free(parts[i], '/')
  }

  lemma ComponentsValid(path: string)
    requires ValidPath(path)
    ensures ValidParts(Components(path)) && Join(Components(path), '/') == path
  {
    if path != "" {
      SplitFree(path, '/');
      JoinSplit(path, '/');
    }
  }

  lemma {:induction false} JoinEnds(parts: seq<string>)
    requires ValidParts(parts) && |parts| >= 1
    ensures var s := Join(parts, '/'); s != "" && s[0] != '/' && s[|s| - 1] != '/'
  {
    var first := parts[0];
    assert first[0] in first && first[|first| - 1] in first;
    if |parts| > 1 { JoinEnds(parts[1..]); }
  }

  /** Valid component lists are the valid paths. */
  lemma JoinValid(parts: seq<string>)
    requires ValidParts(parts)
    ensures ValidPath(Join(parts, '/')) && Components(Join(parts, '/')) == parts
  {
    if parts != [] {
      JoinEnds(parts);
      SplitJoin(parts, '/');
    }
  }

  /** The path is what a list of names prints, none of them empty, "." or "..". */
  ghost predicate PrintsNames(path: string) {
    exists parts :: AreNames(parts) && path == Join(parts, '/')
  }

  predicate AreNames(parts: seq<string>) {
    forall i :: 0 <= i < |parts| ==> Free(parts[i], '/') && parts[i] !in {"", ".", ".."}
  }

  /** Valid paths are exactly those. */
  lemma ValidPathIff(path: string)
    ensures ValidPath(path) <==> PrintsNames(path)
  {
    if ValidPath(path) {
      ComponentsValid(path);
      assert AreNames(Components(path));
    }
    if PrintsNames(path) {
      var parts :| AreNames(parts) && path == Join(parts, '/');
      JoinValid(parts);
    }
  }

  // ---------------------------------------------------------------- the nearest rule

  /** The rule at the path of these components, or else at the nearest path above. */
  function RuleAt(rules: Rules, parts: seq<string>): Option<Residency>
    decreases |parts|
  {
    if Join(parts, '/') in rules then Some(rules[Join(parts, '/')])
    else if parts == [] then None
    else RuleAt(rules, parts[..|parts| - 1])
  }

  method MatchingRule(rules: Rules, path: string) returns (r: Option<Residency>)
    requires ValidPath(path)
    ensures r == RuleAt(rules, Components(path))
  {
    ComponentsValid(path);
    var current := path;
    ghost var parts := Components(path);
    while true
      invariant ValidParts(parts) && current == Join(parts, '/')
      invariant RuleAt(rules, parts) == RuleAt(rules, Components(path))
      decreases |parts|
    {
      if current in rules { return Some(rules[current]); }
      if |parts| <= 1 { AtTop(parts); } else { StepUp(parts); }
      var parent := BeforeLastSlash(current);
      if parent == None {
        RootIsLast(rules, parts);
        return if "" in rules then Some(rules[""]) else None;
      }
      current := parent.value;
      parts := parts[..|parts| - 1];
    }
  }

  lemma {:induction false} StepUp(parts: seq<string>)
    requires ValidParts(parts) && |parts| >= 2
    ensures BeforeLastSlash(Join(parts, '/')) == Some(Join(parts[..|parts| - 1], '/'))
  {
    var front, last := parts[..|parts| - 1], parts[|parts| - 1];
    StepUpFrom(front, last);
    assert parts == front + [last];
  }

  lemma {:induction false} AtTop(parts: seq<string>)
    requires ValidParts(parts) && |parts| <= 1
    ensures BeforeLastSlash(Join(parts, '/')) == None
  {
    if |parts| == 1 { LastIndexNone(parts[0], '/'); } else { LastIndexNone("", '/'); }
  }

  lemma {:induction false} StepUpFrom(front: seq<string>, last: string)
    requires |front| >= 1 && Free(last, '/')
    ensures BeforeLastSlash(Join(front + [last], '/')) == Some(Join(front, '/'))
  {
    JoinSnoc(front, last);
    CutAtLastSlash(Join(front, '/'), last);
  }

  lemma RootIsLast(rules: Rules, parts: seq<string>)
    requires |parts| <= 1 && Join(parts, '/') !in rules
    ensures RuleAt(rules, parts) == if "" in rules then Some(rules[""]) else None
  {
    if |parts| == 1 { assert parts[..0] == []; }
  }

  /** `a` is the longest ancestor with a rule. */
  ghost predicate Nearest(rules: Rules, a: string, path: string) {
    && RuledAncestor(rules, a, path)
    && forall b :: RuledAncestor(rules, b, path) ==> |Components(b)| <= |Components(a)|
  }

  predicate RuledAncestor(rules: Rules, a: string, path: string) {
    a in rules && ValidPath(a) && Ancestor(a, path)
  }

  lemma {:induction false} FoundAt(rules: Rules, parts: seq<string>, n: nat)
    requires n <= |parts| && Join(parts[..n], '/') in rules
    requires forall m :: n < m <= |parts| ==> Join(parts[..m], '/') !in rules
    ensures RuleAt(rules, parts) == Some(rules[Join(parts[..n], '/')])
    decreases |parts|
  {
    assert parts[..|parts|] == parts;
    if n < |parts| {
      var shorter := parts[..|parts| - 1];
      assert forall m :: 0 <= m <= |shorter| ==> shorter[..m] == parts[..m];
      FoundAt(rules, shorter, n);
    }
  }

  lemma {:induction false} FoundNowhere(rules: Rules, parts: seq<string>)
    requires forall m :: 0 <= m <= |parts| ==> Join(parts[..m], '/') !in rules
    ensures RuleAt(rules, parts) == None
    decreases |parts|
  {
    assert parts[..|parts|] == parts;
    if parts != [] {
      var shorter := parts[..|parts| - 1];
      assert forall m :: 0 <= m <= |shorter| ==> shorter[..m] == parts[..m];
      FoundNowhere(rules, shorter);
    }
  }

  /** The ancestors of a path are what its leading components print. */
  lemma PrefixIsAncestor(path: string, m: nat)
    requires ValidPath(path) && m <= |Components(path)|
    ensures var a := Join(Components(path)[..m], '/');
            ValidPath(a) && Components(a) == Components(path)[..m] && Ancestor(a, path)
  {
    ComponentsValid(path);
    JoinValid(Components(path)[..m]);
  }

  lemma AncestorIsPrefix(a: string, path: string)
    requires ValidPath(a) && Ancestor(a, path)
    ensures a == Join(Components(path)[..|Components(a)|], '/')
  {
    ComponentsValid(a);
    assert Components(path)[..|Components(a)|] == Components(a);
  }

  lemma NearestFound(rules: Rules, a: string, path: string)
    requires ValidPath(path) && Nearest(rules, a, path)
    ensures RuleAt(rules, Components(path)) == Some(rules[a])
  {
    var parts := Components(path);
    AncestorIsPrefix(a, path);
    forall m | |Components(a)| < m <= |parts| ensures Join(parts[..m], '/') !in rules {
      PrefixIsAncestor(path, m);
      var b := Join(parts[..m], '/');
      assert RuledAncestor(rules, b, path) <==> b in rules;
    }
    FoundAt(rules, parts, |Components(a)|);
  }

  /** The ancestor of m components is the only one of that length. */
  lemma {:induction false} OnlyOfItsLength(path: string, c: string, m: nat)
    requires ValidPath(c) && Ancestor(c, path) && |Components(c)| == m
    ensures m <= |Components(path)| && c == Join(Components(path)[..m], '/')
  {
    AncestorIsPrefix(c, path);
  }

  ghost predicate NoneLonger(rules: Rules, path: string, m: nat) {
    forall c :: RuledAncestor(rules, c, path) ==> |Components(c)| <= m
  }

  lemma {:induction false} NoneThatLong(rules: Rules, path: string, m: nat)
    requires 0 < m <= |Components(path)| && NoneLonger(rules, path, m) && Join(Components(path)[..m], '/') !in rules
    ensures NoneLonger(rules, path, m - 1)
  {
    forall c | RuledAncestor(rules, c, path) ensures |Components(c)| <= m - 1 {
      if |Components(c)| == m { OnlyOfItsLength(path, c, m); }
    }
  }

  /** The longest ancestor with a rule, looked for from m components down. */
  lemma {:induction false} SomeNearest(rules: Rules, path: string, b: string, m: nat) returns (a: string)
    requires ValidPath(path) && RuledAncestor(rules, b, path) && |Components(b)| <= m <= |Components(path)|
    requires NoneLonger(rules, path, m)
    ensures Nearest(rules, a, path)
    decreases m
  {
    if |Components(b)| == m {
      return b;
    }
    PrefixIsAncestor(path, m);
    a := Join(Components(path)[..m], '/');
    if a !in rules {
      NoneThatLong(rules, path, m);
      a := SomeNearest(rules, path, b, m - 1);
    }
  }

  /** The rule that applies to a path is the one at its longest ancestor that has one, the
      root included; there is none exactly when no ancestor has one. */
  lemma LongestAncestorWins(rules: Rules, path: string)
    requires ValidPath(path)
    ensures RuleAt(rules, Components(path)).Some? <==> exists a :: Nearest(rules, a, path)
    ensures forall a :: Nearest(rules, a, path) ==> RuleAt(rules, Components(path)) == Some(rules[a])
    ensures RuleAt(rules, Components(path)) == None <==> forall a :: !RuledAncestor(rules, a, path)
  {
    forall a | Nearest(rules, a, path) ensures RuleAt(rules, Components(path)) == Some(rules[a]) {
      NearestFound(rules, a, path);
    }
    if b :| RuledAncestor(rules, b, path) {
      assert NoneLonger(rules, path, |Components(path)|);
      var a := SomeNearest(rules, path, b, |Components(path)|);
    } else {
      forall m | 0 <= m <= |Components(path)| ensures Join(Components(path)[..m], '/') !in rules {
        PrefixIsAncestor(path, m);
        assert !RuledAncestor(rules, Join(Components(path)[..m], '/'), path);
      }
      FoundNowhere(rules, Components(path));
    }
  }

  // ---------------------------------------------------------------- setting a rule

  /** An ancestor of `path` below `a` has a rule of its own. */
  ghost predicate Overridden(rules: Rules, a: string, path: string) {
    exists b :: RuledAncestor(rules, b, path) && |Components(b)| > |Components(a)|
  }

  lemma NewRuleWins(rules: Rules, a: string, x: Residency, path: string)
    requires ValidPath(a) && ValidPath(path) && Ancestor(a, path) && !Overridden(rules, a, path)
    ensures RuleAt(rules[a := x], Components(path)) == Some(x)
  {
    var after := rules[a := x];
    assert forall b :: RuledAncestor(after, b, path) && b != a ==> RuledAncestor(rules, b, path);
    assert Nearest(after, a, path);
    NearestFound(after, a, path);
  }

  lemma OldRuleStays(rules: Rules, a: string, x: Residency, path: string)
    requires ValidPath(path) && (Ancestor(a, path) ==> Overridden(rules, a, path))
    ensures RuleAt(rules[a := x], Components(path)) == RuleAt(rules, Components(path))
  {
    var after := rules[a := x];
    LongestAncestorWins(rules, path);
    LongestAncestorWins(after, path);
    assert forall b :: RuledAncestor(after, b, path) && b != a ==> RuledAncestor(rules, b, path);
    if c :| Nearest(rules, c, path) {
      assert Overridden(rules, a, path) ==> |Components(a)| < |Components(c)|;
      assert RuledAncestor(after, c, path) && Nearest(after, c, path);
      assert c != a;
    } else {
      assert forall b :: !RuledAncestor(after, b, path);
    }
  }

  /** A new rule decides exactly the paths below it that no more specific rule decides. */
  lemma SetRule(rules: Rules, a: string, x: Residency, path: string)
    requires ValidPath(a) && ValidPath(path)
    ensures RuleAt(rules[a := x], Components(path)) ==
            if Ancestor(a, path) && !Overridden(rules, a, path) then Some(x) else RuleAt(rules, Components(path))
  {
    if Ancestor(a, path) && !Overridden(rules, a, path) {
      NewRuleWins(rules, a, x, path);
    } else {
      OldRuleStays(rules, a, x, path);
    }
  }

  // ---------------------------------------------------------------- namespaces

  function NamespaceKey(sub: string, app: nat): string {
    sub + ":" + Decimal(app)
  }

  lemma NamespaceKeyInjective(sub: string, app: nat, sub': string, app': nat)
    requires ValidUserSub(sub) && ValidUserSub(sub')
    requires NamespaceKey(sub, app) == NamespaceKey(sub', app')
    ensures sub == sub' && app == app'
  {
    CutUnique(sub, sub', Decimal(app), Decimal(app'), ':');
    DecimalInjective(app, app');
  }

  type Namespaces = map<string, Rules>

  function RulesOf(namespaces: Namespaces, sub: string, app: nat): Rules {
    if NamespaceKey(sub, app) in namespaces then namespaces[NamespaceKey(sub, app)] else map[]
  }

  function ResidencyOf(deviceDefault: Residency, namespaces: Namespaces, sub: string, app: nat,
                       path: string): Residency {
    match RuleAt(RulesOf(namespaces, sub, app), Components(path))
    case Some(x) => x
    case None => deviceDefault
  }

  function WithRule(namespaces: Namespaces, sub: string, app: nat, path: string, x: Residency): Namespaces {
    namespaces[NamespaceKey(sub, app) := RulesOf(namespaces, sub, app)[path := x]]
  }

  /** Setting a rule changes the residency of the paths below it that have no more specific
      rule, in the same namespace, and of nothing else. */
  lemma SetResidencyIsLocal(deviceDefault: Residency, namespaces: Namespaces, sub: string, app: nat, a: string,
                            x: Residency,
                            sub': string, app': nat, path: string)
    requires ValidUserSub(sub) && ValidUserSub(sub') && ValidPath(a) && ValidPath(path)
    ensures ResidencyOf(deviceDefault, WithRule(namespaces, sub, app, a, x), sub', app', path) ==
            if sub == sub' && app == app' && Ancestor(a, path) &&
               !Overridden(RulesOf(namespaces, sub, app), a, path) then x
            else ResidencyOf(deviceDefault, namespaces, sub', app', path)
  {
    if NamespaceKey(sub, app) == NamespaceKey(sub', app') {
      NamespaceKeyInjective(sub, app, sub', app');
      SetRule(RulesOf(namespaces, sub, app), a, x, path);
    }
  }

  /** No rule covers the path, at the root or below. */
  ghost predicate Undecided(rules: Rules, path: string) {
    forall a :: !RuledAncestor(rules, a, path)
  }

  /** Another device default changes the residency of the paths that no rule covers, in every
      namespace, and of nothing else. */
  lemma DefaultIsLast(before: Residency, after: Residency, namespaces: Namespaces, sub: string, app: nat, path: string)
    requires ValidPath(path)
    ensures ResidencyOf(after, namespaces, sub, app, path) ==
            if Undecided(RulesOf(namespaces, sub, app), path) then after
            else ResidencyOf(before, namespaces, sub, app, path)
  {
    LongestAncestorWins(RulesOf(namespaces, sub, app), path);
  }

  // ---------------------------------------------------------------- the policy

  datatype PolicyError = InvalidUserSubject | InvalidApplicationId | InvalidPath

  class ResidencyPolicy {
    var deviceDefault: Residency
    var excluded: set<int>
    var namespaces: Namespaces

    constructor ()
      ensures deviceDefault == Passthrough && excluded == {} && namespaces == map[]
    {
      deviceDefault, excluded, namespaces := Passthrough, {}, map[];
    }

    /** Decides exactly the paths that no rule decides. */
    method SetDeviceDefault(residency: Residency)
      modifies this`deviceDefault
      ensures deviceDefault == residency
      ensures forall sub, app: nat, path | ValidPath(path) ::
                ResidencyOf(deviceDefault, namespaces, sub, app, path) ==
                if Undecided(RulesOf(namespaces, sub, app), path) then residency
                else ResidencyOf(old(deviceDefault), namespaces, sub, app, path)
    {
      forall sub, app: nat, path | ValidPath(path)
        ensures ResidencyOf(residency, namespaces, sub, app, path) ==
                if Undecided(RulesOf(namespaces, sub, app), path) then residency
                else ResidencyOf(deviceDefault, namespaces, sub, app, path)
      {
        DefaultIsLast(deviceDefault, residency, namespaces, sub, app, path);
      }
      deviceDefault := residency;
    }

    method SetApplicationExcluded(app: int, exclude: bool) returns (r: Result<(), PolicyError>)
      modifies this`excluded
      ensures r.Ok? <==> app > 0
      ensures r.Ok? ==> forall a :: a in excluded <==> if a == app then exclude else a in old(excluded)
      ensures r.Err? ==> excluded == old(excluded)
    {
      if app <= 0 { return Err(InvalidApplicationId); }
      if exclude { excluded := excluded + {app}; } else { excluded := excluded - {app}; }
      return Ok(());
    }

    method SetResidency(sub: string, app: int, path: string, residency: Residency) returns (r: Result<(), PolicyError>)
      modifies this`namespaces
      ensures r.Ok? <==> ValidUserSub(sub) && app > 0 && ValidPath(path)
      ensures namespaces == if r.Ok? then WithRule(old(namespaces), sub, app, path, residency) else old(namespaces)
    {
      if !ValidUserSub(sub) { return Err(InvalidUserSubject); }
      if app <= 0 { return Err(InvalidApplicationId); }
      if !ValidPath(path) { return Err(InvalidPath); }
      var key := NamespaceKey(sub, app);
      var rules := if key in namespaces then namespaces[key] else map[];
      namespaces := namespaces[key := rules[path := residency]];
      return Ok(());
    }

    method GetResidency(sub: string, app: int, path: string) returns (r: Result<Residency, PolicyError>)
      ensures r.Ok? <==> ValidUserSub(sub) && app > 0 && ValidPath(path)
      ensures r.Ok? ==> r.value == ResidencyOf(deviceDefault, namespaces, sub, app, path)
    {
      if !ValidUserSub(sub) { return Err(InvalidUserSubject); }
      if app <= 0 { return Err(InvalidApplicationId); }
      if !ValidPath(path) { return Err(InvalidPath); }
      var key := NamespaceKey(sub, app);
      var rule := None;
      if key in namespaces {
        rule := MatchingRule(namespaces[key], path);
      } else {
        FoundNowhere(map[], Components(path));
      }
      return Ok(if rule.Some? then rule.value else deviceDefault);
    }
  }
}
