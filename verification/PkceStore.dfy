/** The browser client's PKCE verifiers: kept in memory and, where there is one, in a
    storage that survives reloads and also holds the client's tokens. */
module PkceStore {
  import opened Text

  type Storage = map<string, string>

  // ---------------------------------------------------------------- storage keys

  function StateKey(authority: string, state: string): string {
    "oidc.pkce:" + authority + ":state:" + state
  }

  function LastKey(authority: string): string {
    "oidc.pkce:" + authority + ":last"
  }

  function TokenKey(authority: string): string {
    "oidc.token:" + authority + ":response"
  }

  /** Keys of different states differ, and no key of a state is the last or the token key. */
  lemma KeysDistinct(authority: string, s: string, t: string)
    ensures StateKey(authority, s) == StateKey(authority, t) ==> s == t
    ensures StateKey(authority, s) != LastKey(authority)
    ensures StateKey(authority, s) != TokenKey(authority)
    ensures LastKey(authority) != TokenKey(authority)
  {
    var prefix := "oidc.pkce:" + authority + ":state:";
    assert (prefix + s)[|prefix|..] == s && (prefix + t)[|prefix|..] == t;
    assert StateKey(authority, s)[|authority| + 11] == 's' && LastKey(authority)[|authority| + 11] == 'l';
    assert StateKey(authority, s)[5] == 'p' && LastKey(authority)[5] == 'p' && TokenKey(authority)[5] == 't';
  }

  // ---------------------------------------------------------------- the client

  /** `persistent`: the storage is there (`getStorage` is not null). `stateKey`, `lastKey` and
      `tokenKey` are the client's storage keys. */
  datatype Config = Config(persistent: bool, stateKey: string -> string, lastKey: string, tokenKey: string)

  function ConfigOf(authority: string, persistent: bool): Config {
    Config(persistent, s => StateKey(authority, s), LastKey(authority), TokenKey(authority))
  }

  ghost predicate Distinct(c: Config) {
    && (forall s, t :: c.stateKey(s) == c.stateKey(t) ==> s == t)
    && (forall s :: c.stateKey(s) != c.lastKey && c.stateKey(s) != c.tokenKey)
    && c.lastKey != c.tokenKey
  }

  lemma ConfigDistinct(authority: string, persistent: bool)
    ensures Distinct(ConfigOf(authority, persistent))
  {
    var c := ConfigOf(authority, persistent);
    forall s, t
      ensures (c.stateKey(s) == c.stateKey(t) ==> s == t) && c.stateKey(s) != c.lastKey && c.stateKey(s) != c.tokenKey
      ensures c.lastKey != c.tokenKey
    {
      KeysDistinct(authority, s, t);
    }
  }

  datatype Data = Data(memory: map<string, string>, last: Option<string>, storage: Storage)

  /** The verifier a callback with this state would get. */
  function Lookup(c: Config, d: Data, state: string): Option<string> {
    if state in d.memory then Some(d.memory[state])
    else if c.persistent && c.stateKey(state) in d.storage then Some(d.storage[c.stateKey(state)])
    else None
  }

  /** What is in memory is in storage too. */
  predicate Agrees(c: Config, d: Data) {
    c.persistent ==> forall s :: s in d.memory ==> c.stateKey(s) in d.storage && d.storage[c.stateKey(s)] == d.memory[s]
  }

  function Remembered(c: Config, d: Data, state: string, verifier: string): Data {
    Data(d.memory[state := verifier], Some(verifier),
         if c.persistent then d.storage[c.stateKey(state) := verifier][c.lastKey := verifier] else d.storage)
  }

  /** After a callback with this state. */
  function Consumed(c: Config, d: Data, state: string): Data {
    Data(d.memory - {state}, None, if c.persistent then d.storage - {c.stateKey(state)} - {c.lastKey} else d.storage)
  }

  /** A reload leaves the storage only. */
  function Reloaded(d: Data): Data {
    Data(map[], None, d.storage)
  }

  function TokenSet(c: Config, d: Data, token: Option<string>): Data {
    if !c.persistent then d
    else if token.Some? then d.(storage := d.storage[c.tokenKey := token.value])
    else d.(storage := d.storage - {c.tokenKey})
  }

  lemma RememberedLookup(c: Config, d: Data, state: string, verifier: string, s: string)
    requires Distinct(c) && Agrees(c, d)
    ensures Agrees(c, Remembered(c, d, state, verifier))
    ensures Lookup(c, Remembered(c, d, state, verifier), s) == if s == state then Some(verifier) else Lookup(c, d, s)
  {
  }

  lemma ConsumedLookup(c: Config, d: Data, state: string, s: string)
    requires Distinct(c) && Agrees(c, d)
    ensures Agrees(c, Consumed(c, d, state))
    ensures Lookup(c, Consumed(c, d, state), s) == if s == state then None else Lookup(c, d, s)
  {
  }

  lemma ReloadedLookup(c: Config, d: Data, s: string)
    requires Agrees(c, d)
    ensures Agrees(c, Reloaded(d))
    ensures Lookup(c, Reloaded(d), s) == if c.persistent then Lookup(c, d, s) else None
  {
  }

  lemma TokenLookup(c: Config, d: Data, token: Option<string>, s: string)
    requires Distinct(c) && Agrees(c, d)
    ensures Agrees(c, TokenSet(c, d, token))
    ensures Lookup(c, TokenSet(c, d, token), s) == Lookup(c, d, s)
  {
  }

  datatype CallbackError = MissingState | InvalidState

  class OidcClient {
    const config: Config
    var data: Data

    ghost predicate Valid()
      reads this
    {
      Distinct(config) && Agrees(config, data)
    }

    constructor (authority: string, persistent: bool, storage: Storage)
      ensures Valid() && config == ConfigOf(authority, persistent) && data == Data(map[], None, storage)
    {
      config, data := ConfigOf(authority, persistent), Data(map[], None, storage);
      ConfigDistinct(authority, persistent);
    }

    method RememberPkceVerifier(state: string, verifier: string)
      requires Valid()
      modifies this
      ensures Valid() && data == Remembered(config, old(data), state, verifier)
      ensures forall s :: Lookup(config, data, s) == if s == state then Some(verifier) else Lookup(config, old(data), s)
    {
      forall s {
        RememberedLookup(config, data, state, verifier, s);
      }
      data := data.(memory := data.memory[state := verifier], last := Some(verifier));
      if !config.persistent { return; }
      data := data.(storage := data.storage[config.stateKey(state) := verifier]);
      data := data.(storage := data.storage[config.lastKey := verifier]);
    }

    /** With a state, takes that state's verifier and leaves the others; without one (or with
        the empty one), takes the last verifier remembered and leaves every state's. */
    method ConsumePkceVerifier(state: Option<string>) returns (verifier: Option<string>)
      requires Valid()
      modifies this
      ensures Valid()
      ensures state.Some? && state.value != "" ==>
        && verifier == Lookup(config, old(data), state.value)
        && data == Consumed(config, old(data), state.value)
        && forall s :: Lookup(config, data, s) == if s == state.value then None else Lookup(config, old(data), s)
      ensures state == None || state.value == "" ==>
        && verifier == (if old(data).last.Some? then old(data).last
                        else if config.persistent && config.lastKey in old(data).storage then
                          Some(old(data).storage[config.lastKey])
                        else None)
        && forall s :: Lookup(config, data, s) == Lookup(config, old(data), s)
    {
      if state.Some? && state.value != "" {
        forall s {
          ConsumedLookup(config, data, state.value, s);
        }
        var key := config.stateKey(state.value);
        var inMemory := if state.value in data.memory then Some(data.memory[state.value]) else None;
        data := data.(memory := data.memory - {state.value});
        var inStorage := if config.persistent && key in data.storage then Some(data.storage[key]) else None;
        if config.persistent { data := data.(storage := data.storage - {key} - {config.lastKey}); }
        data := data.(last := None);
        return if inMemory.Some? then inMemory else inStorage;
      }
      verifier := data.last;
      if verifier == None && config.persistent && config.lastKey in data.storage {
        verifier := Some(data.storage[config.lastKey]);
      }
      data := data.(last := None);
      if config.persistent { data := data.(storage := data.storage - {config.lastKey}); }
    }

    /** The code branch of `handleSigninCallback`, up to the token request. */
    method HandleCodeCallback(state: Option<string>) returns (r: Result<string, CallbackError>)
      requires Valid()
      modifies this
      ensures Valid()
      ensures r == CallbackResult(config, old(data), state)
      ensures data == AfterCallback(config, old(data), state)
    {
      if state == None || state.value == "" { return Err(MissingState); }
      var verifier := ConsumePkceVerifier(state);
      if verifier == None || verifier.value == "" { return Err(InvalidState); }
      return Ok(verifier.value);
    }
  }

  function CallbackResult(c: Config, d: Data, state: Option<string>): Result<string, CallbackError> {
    if state == None || state.value == "" then Err(MissingState)
    else
      var verifier := Lookup(c, d, state.value);
      if verifier == None || verifier.value == "" then Err(InvalidState) else Ok(verifier.value)
  }

  function AfterCallback(c: Config, d: Data, state: Option<string>): Data {
    if state == None || state.value == "" then d else Consumed(c, d, state.value)
  }

  // ---------------------------------------------------------------- whole histories

  datatype Event =
    | Remember(state: string, verifier: string)
    | Callback(returned: Option<string>)
    | Reload
    | SetToken(token: Option<string>)

  function Step(c: Config, d: Data, e: Event): Data {
    match e
    case Remember(state, verifier) => Remembered(c, d, state, verifier)
    case Callback(returned) => AfterCallback(c, d, returned)
    case Reload => Reloaded(d)
    case SetToken(token) => TokenSet(c, d, token)
  }

  function After(c: Config, events: seq<Event>): Data {
    if events == [] then Data(map[], None, map[])
    else Step(c, After(c, events[..|events| - 1]), events[|events| - 1])
  }

  /** The event decides what a callback with the state gets. */
  predicate Touches(c: Config, e: Event, s: string) {
    match e
    case Remember(state, _) => state == s
    case Callback(returned) => returned == Some(s)
    case Reload => !c.persistent
    case SetToken(_) => false
  }

  /** The latest event that touches the state remembered this verifier. */
  predicate Pending(c: Config, events: seq<Event>, s: string, v: string) {
    exists k :: 0 <= k < |events| && events[k] == Remember(s, v) &&
      forall m :: k < m < |events| ==> !Touches(c, events[m], s)
  }

  lemma StepLookup(c: Config, d: Data, e: Event, s: string)
    requires Distinct(c) && Agrees(c, d) && s != ""
    ensures Agrees(c, Step(c, d, e))
    ensures Lookup(c, Step(c, d, e), s) ==
            if !Touches(c, e, s) then Lookup(c, d, s) else if e.Remember? then Some(e.verifier) else None
  {
    match e
    case Remember(state, verifier) => RememberedLookup(c, d, state, verifier, s);
    case Callback(returned) =>
      if returned.Some? && returned.value != "" { ConsumedLookup(c, d, returned.value, s); }
    case Reload => ReloadedLookup(c, d, s);
    case SetToken(token) => TokenLookup(c, d, token, s);
  }

  lemma PendingStep(c: Config, events: seq<Event>, s: string, v: string)
    requires events != []
    ensures var e := events[|events| - 1];
            Pending(c, events, s, v) <==>
            if Touches(c, e, s) then e == Remember(s, v) else Pending(c, events[..|events| - 1], s, v)
  {
    var n := |events| - 1;
    var before := events[..n];
    if Touches(c, events[n], s) {
      if events[n] == Remember(s, v) { assert Pending(c, events, s, v); }
    } else {
      if Pending(c, before, s, v) {
        var k :| 0 <= k < n && before[k] == Remember(s, v) && forall m :: k < m < n ==> !Touches(c, before[m], s);
        assert events[k] == Remember(s, v) && forall m :: k < m < |events| ==> m == n || events[m] == before[m];
      }
      if Pending(c, events, s, v) {
        var k :| 0 <= k < |events| && events[k] == Remember(s, v) &&
          forall m :: k < m < |events| ==> !Touches(c, events[m], s);
        assert k < n && before[k] == events[k] && forall m :: k < m < n ==> before[m] == events[m];
      }
    }
  }

  /** Memory always agrees with storage, and for every non-empty state what a callback would
      get is what was remembered for that state and neither used nor lost since. */
  lemma {:induction false} LookupIsPending(c: Config, events: seq<Event>, s: string, v: string)
    requires Distinct(c) && s != ""
    ensures Agrees(c, After(c, events))
    ensures Lookup(c, After(c, events), s) == Some(v) <==> Pending(c, events, s, v)
  {
    if events != [] {
      var before := events[..|events| - 1];
      LookupIsPending(c, before, s, v);
      StepLookup(c, After(c, before), events[|events| - 1], s);
      PendingStep(c, events, s, v);
    }
  }

  /** A callback gets a verifier exactly when it is the one pending for its own state. */
  lemma CallbackIff(c: Config, events: seq<Event>, returned: Option<string>, v: string)
    requires Distinct(c)
    ensures CallbackResult(c, After(c, events), returned) == Ok(v) <==>
            returned.Some? && returned.value != "" && v != "" && Pending(c, events, returned.value, v)
  {
    if returned.Some? && returned.value != "" {
      LookupIsPending(c, events, returned.value, v);
    }
  }

  /** No verifier is handed out twice: between two callbacks that succeed for one state, the
      state is remembered again. */
  lemma AtMostOnce(c: Config, events: seq<Event>, i: nat, s: string, v: string)
    requires Distinct(c) && i < |events| && events[i] == Callback(Some(s))
    requires CallbackResult(c, After(c, events), Some(s)) == Ok(v)
    ensures exists k :: i < k < |events| && events[k] == Remember(s, v)
  {
    CallbackIff(c, events, Some(s), v);
    var k :| 0 <= k < |events| && events[k] == Remember(s, v) &&
      forall m :: k < m < |events| ==> !Touches(c, events[m], s);
    assert Touches(c, events[i], s);
  }

  /** A callback leaves every other state's verifier where it was. */
  lemma OthersIntact(c: Config, events: seq<Event>, returned: Option<string>, s: string)
    requires Distinct(c) && s != "" && returned != Some(s)
    ensures Lookup(c, After(c, events + [Callback(returned)]), s) == Lookup(c, After(c, events), s)
  {
    LookupIsPending(c, events, s, "");
    var longer := events + [Callback(returned)];
    assert longer[..|longer| - 1] == events;
    StepLookup(c, After(c, events), Callback(returned), s);
  }

  /** A verifier remembered for a state comes back with that state exactly when the state is
      not empty: the client treats an empty one as missing. */
  lemma ReturnsIff(c: Config, s: string, v: string)
    requires Distinct(c) && v != ""
    ensures CallbackResult(c, After(c, [Remember(s, v)]), Some(s)) == Ok(v) <==> s != ""
  {
    var events := [Remember(s, v)];
    CallbackIff(c, events, Some(s), v);
    assert events[0] == Remember(s, v);
  }
}
