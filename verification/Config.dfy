/** Configuration: secret resolution, validation, and the guarded hot swap
    (internal/utils/env.go, internal/models/config.go, internal/models/safe_config.go). */
module Configs {
  import opened Prelude
  import opened EnvExpand
  import Fanout

  /** A flag written as a boolean, or as text that may refer to the environment. */
  datatype EnvBool = EnvBool(raw: string, val: bool)

  datatype ArrayConfig = ArrayConfig(
    name: string, endpoint: string, username: string, password: string, passwordFile: string,
    skipVerify: EnvBool, maxConcurrency: int)

  datatype Config = Config(arrays: seq<ArrayConfig>, maxConcurrency: int)

  // ---------------------------------------------------------------- fan-out limits

  const DEFAULT_MAX_CONCURRENCY := 16

  function FleetLimit(c: Config): int
  {
    if c.maxConcurrency > 0 then c.maxConcurrency else DEFAULT_MAX_CONCURRENCY
  }

  function LimitOr(a: ArrayConfig, fleet: int): int
  {
    if a.maxConcurrency > 0 then a.maxConcurrency else fleet
  }

  /** The clamp of NewArrayClient. */
  function ClientLimit(limit: int): int
  {
    if limit < 1 then DEFAULT_MAX_CONCURRENCY else limit
  }

  /** Whatever the configuration says, a client's fan-outs have a limit of at least one, and so never
      get stuck: its own setting, else the fleet's, else 16. */
  lemma ConfiguredFanOutEnds<R(!new)>(c: Config, a: ArrayConfig, n: nat)
    ensures var limit := ClientLimit(LimitOr(a, FleetLimit(c)));
      && limit == (if a.maxConcurrency > 0 then a.maxConcurrency
                   else if c.maxConcurrency > 0 then c.maxConcurrency else 16)
      && limit >= 1
      && forall m: Fanout.Moment<R> :: Fanout.Consistent(m, limit) && |m.slots| == n && !Fanout.Done(m) ==>
          exists e :: Fanout.Enabled(m, limit, e)
  {
    Fanout.NeverStuckIff<R>(n, ClientLimit(LimitOr(a, FleetLimit(c))));
  }

  // ---------------------------------------------------------------- secrets

  datatype ConfigError =
    | BadSecret(error: SecretError) | NoPasswordFile(path: string)
    | UnsetFlag(names: seq<string>) | NotBoolean(text: string)

  /** Reading files and parsing booleans (after trimming, empty text meaning false) are inputs. */
  datatype World = World(env: Env, files: map<string, string>, parseBool: string -> Option<bool>)

  function ResolveFlag(b: EnvBool, w: World): Result<EnvBool, ConfigError>
  {
    if b.raw == "" then Ok(b)
    else
      match Expand(b.raw, w.env)
      case Err(names) => Err(UnsetFlag(names))
      case Ok(text) =>
        match w.parseBool(text)
        case None => Err(NotBoolean(text))
        case Some(v) => Ok(b.(val := v))
  }

  predicate PasswordFromFile(a: ArrayConfig)
  {
    a.password == "" && a.passwordFile != ""
  }

  /** One array's turn in ResolveSecrets: what is left in the entry, and the error that ended the turn
      early, if any. Fields resolved before the error stay resolved. */
  datatype Turn = Turn(left: ArrayConfig, error: Option<ConfigError>)

  function TakeTurn(a: ArrayConfig, w: World): Turn
  {
    match Secret("endpoint", a.endpoint, w.env)
    case Err(e) => Turn(a, Some(BadSecret(e)))
    case Ok(endpoint) =>
      match Secret("username", a.username, w.env)
      case Err(e) => Turn(a.(endpoint := endpoint), Some(BadSecret(e)))
      case Ok(username) => PasswordTurn(a.(endpoint := endpoint, username := username), w)
  }

  /** The rest of the turn; a password file ends it before the flag is looked at. */
  function PasswordTurn(a: ArrayConfig, w: World): Turn
  {
    if PasswordFromFile(a) then
      if a.passwordFile in w.files then Turn(a.(password := w.files[a.passwordFile]), None)
      else Turn(a, Some(NoPasswordFile(a.passwordFile)))
    else
      match Secret("password", a.password, w.env)
      case Err(e) => Turn(a, Some(BadSecret(e)))
      case Ok(password) =>
        match ResolveFlag(a.skipVerify, w)
        case Err(e) => Turn(a.(password := password), Some(e))
        case Ok(flag) => Turn(a.(password := password, skipVerify := flag), None)
  }

  function ResolveArray(a: ArrayConfig, w: World): Result<ArrayConfig, ConfigError>
  {
    var t := TakeTurn(a, w);
    if t.error.Some? then Err(t.error.value) else Ok(t.left)
  }

  /** The values in order, or the first failure. */
  function Sequenced<T, E>(results: seq<Result<T, E>>): (r: Result<seq<T>, E>)
    ensures r.Ok? ==> |r.value| == |results|
  {
    if results == [] then Ok([])
    else
      var n := |results| - 1;
      match Sequenced(results[..n])
      case Err(e) => Err(e)
      case Ok(before) =>
        match results[n]
        case Err(e) => Err(e)
        case Ok(last) => Ok(before + [last])
  }

  /** A failure among the first results is the failure of them all. */
  lemma {:induction false} FirstFailure<T, E>(results: seq<Result<T, E>>, k: nat)
    requires k <= |results| && Sequenced(results[..k]).Err?
    ensures Sequenced(results) == Sequenced(results[..k])
  {
    if k == |results| {
      assert results[..k] == results;
    } else {
      var n := |results| - 1;
      assert results[..n][..k] == results[..k];
      FirstFailure(results[..n], k);
    }
  }

  /** There is no failure if and only if each result is one, and then each value is in its place. */
  lemma {:induction false} SequencedEach<T, E>(results: seq<Result<T, E>>)
    ensures Sequenced(results).Ok? <==> forall i :: 0 <= i < |results| ==> results[i].Ok?
    ensures Sequenced(results).Ok? ==>
      forall i :: 0 <= i < |results| ==> results[i] == Ok(Sequenced(results).value[i])
  {
    if results != [] {
      SequencedEach(results[..|results| - 1]);
    }
  }

  function Each(arrays: seq<ArrayConfig>, w: World): (results: seq<Result<ArrayConfig, ConfigError>>)
    ensures |results| == |arrays|
  {
    seq(|arrays|, i requires 0 <= i < |arrays| => ResolveArray(arrays[i], w))
  }

  /** All arrays resolved in order, or the first failure. */
  function ResolveAll(arrays: seq<ArrayConfig>, w: World): (r: Result<seq<ArrayConfig>, ConfigError>)
    ensures r.Ok? ==> |r.value| == |arrays|
  {
    Sequenced(Each(arrays, w))
  }

  lemma FailureStays(arrays: seq<ArrayConfig>, w: World, k: nat)
    requires k <= |arrays| && ResolveAll(arrays[..k], w).Err?
    ensures ResolveAll(arrays, w) == ResolveAll(arrays[..k], w)
  {
    assert Each(arrays, w)[..k] == Each(arrays[..k], w);
    FirstFailure(Each(arrays, w), k);
  }

  lemma ResolveNext(arrays: seq<ArrayConfig>, w: World, i: nat)
    requires i < |arrays| && ResolveAll(arrays[..i], w).Ok?
    ensures ResolveAll(arrays[..i + 1], w) ==
      match ResolveArray(arrays[i], w)
      case Err(e) => Err(e)
      case Ok(last) => Ok(ResolveAll(arrays[..i], w).value + [last])
  {
    assert Each(arrays[..i + 1], w)[..i] == Each(arrays[..i], w);
  }

  /** One entry, field by field in place. */
  method ResolveEntry(arrays: array<ArrayConfig>, i: nat, w: World) returns (error: Option<ConfigError>)
    requires i < arrays.Length
    modifies arrays
    ensures TakeTurn(old(arrays[i]), w) == Turn(arrays[i], error)
    ensures forall k :: 0 <= k < arrays.Length && k != i ==> arrays[k] == old(arrays[k])
  {
    var endpoint := ExpandEnvSecret("endpoint", arrays[i].endpoint, w.env);
    if endpoint.Err? {
      return Some(BadSecret(endpoint.error));
    }
    arrays[i] := arrays[i].(endpoint := endpoint.value);
    var username := ExpandEnvSecret("username", arrays[i].username, w.env);
    if username.Err? {
      return Some(BadSecret(username.error));
    }
    arrays[i] := arrays[i].(username := username.value);
    if arrays[i].password == "" && arrays[i].passwordFile != "" {
      if arrays[i].passwordFile !in w.files {
        return Some(NoPasswordFile(arrays[i].passwordFile));
      }
      arrays[i] := arrays[i].(password := w.files[arrays[i].passwordFile]);
      return None;
    }
    var password := ExpandEnvSecret("password", arrays[i].password, w.env);
    if password.Err? {
      return Some(BadSecret(password.error));
    }
    arrays[i] := arrays[i].(password := password.value);
    var flag := ResolveFlag(arrays[i].skipVerify, w);
    if flag.Err? {
      return Some(flag.error);
    }
    arrays[i] := arrays[i].(skipVerify := flag.value);
    error := None;
  }

  /** Entry k failed: those before it are resolved, it keeps what it got, those after it are untouched. */
  predicate StoppedAt(before: seq<ArrayConfig>, after: seq<ArrayConfig>, w: World, k: nat, error: ConfigError)
  {
    && k < |before| == |after|
    && ResolveAll(before[..k], w) == Ok(after[..k])
    && TakeTurn(before[k], w) == Turn(after[k], Some(error))
    && before[k + 1..] == after[k + 1..]
  }

  lemma StopsHere(before: seq<ArrayConfig>, after: seq<ArrayConfig>, w: World, i: nat, done: seq<ArrayConfig>,
                  error: ConfigError)
    requires i < |before| == |after| && |done| == i && ResolveAll(before[..i], w) == Ok(done)
    requires TakeTurn(before[i], w) == Turn(after[i], Some(error))
    requires forall k :: 0 <= k < i ==> after[k] == done[k]
    requires forall k :: i < k < |before| ==> after[k] == before[k]
    ensures StoppedAt(before, after, w, i, error)
  {
    assert after[..i] == done;
  }

  method ResolveSecrets(arrays: array<ArrayConfig>, w: World) returns (r: Result<(), ConfigError>)
    modifies arrays
    ensures r.Ok? ==> ResolveAll(old(arrays[..]), w) == Ok(arrays[..])
    ensures r.Err? ==> ResolveAll(old(arrays[..]), w) == Err(r.error)
    ensures r.Err? ==> exists k :: StoppedAt(old(arrays[..]), arrays[..], w, k, r.error)
  {
    ghost var before := arrays[..];
    ghost var done: seq<ArrayConfig> := [];
    for i := 0 to arrays.Length
      invariant |done| == i && ResolveAll(before[..i], w) == Ok(done)
      invariant forall k :: 0 <= k < i ==> arrays[k] == done[k]
      invariant forall k :: i <= k < arrays.Length ==> arrays[k] == before[k]
    {
      ResolveNext(before, w, i);
      var error := ResolveEntry(arrays, i, w);
      if error.Some? {
        FailureStays(before, w, i + 1);
        StopsHere(before, arrays[..], w, i, done, error.value);
        return Err(error.value);
      }
      done := done + [arrays[i]];
    }
    assert before[..arrays.Length] == before && arrays[..] == done;
    return Ok(());
  }

  /** A flag without text is left alone; text is expanded and parsed, and what it parses to is kept. */
  lemma FlagIsParsed(b: EnvBool, w: World)
    ensures b.raw == "" ==> ResolveFlag(b, w) == Ok(b)
    ensures b.raw != "" ==>
      (ResolveFlag(b, w).Ok? <==> Expand(b.raw, w.env).Ok? && w.parseBool(Expand(b.raw, w.env).value).Some?)
    ensures b.raw != "" && ResolveFlag(b, w).Ok? ==>
      ResolveFlag(b, w).value.raw == b.raw &&
      w.parseBool(Expand(b.raw, w.env).value) == Some(ResolveFlag(b, w).value.val)
  {
  }

  /** The credentials of the entry can all be had. */
  predicate CredentialsResolve(a: ArrayConfig, w: World)
  {
    && Secret("endpoint", a.endpoint, w.env).Ok? && Secret("username", a.username, w.env).Ok?
    && if a.password == "" && a.passwordFile != "" then a.passwordFile in w.files
       else Secret("password", a.password, w.env).Ok?
  }

  /** The resolved password and flag. */
  predicate Finishes(a: ArrayConfig, b: ArrayConfig, w: World)
  {
    if a.password == "" && a.passwordFile != "" then
      a.passwordFile in w.files && b.password == w.files[a.passwordFile] && b.skipVerify == a.skipVerify
    else Secret("password", a.password, w.env) == Ok(b.password) && ResolveFlag(a.skipVerify, w) == Ok(b.skipVerify)
  }

  lemma PasswordFinishes(a: ArrayConfig, w: World)
    ensures PasswordTurn(a, w).error.None? <==>
      if PasswordFromFile(a) then a.passwordFile in w.files
      else Secret("password", a.password, w.env).Ok? && ResolveFlag(a.skipVerify, w).Ok?
    ensures var b := PasswordTurn(a, w).left;
      PasswordTurn(a, w).error.None? ==>
      Finishes(a, b, w) && b == a.(password := b.password, skipVerify := b.skipVerify)
  {
  }

  /** The first field that cannot be resolved is the one the error is about. */
  predicate FailsFirst(a: ArrayConfig, e: ConfigError, w: World)
  {
    var endpoint, username := Secret("endpoint", a.endpoint, w.env), Secret("username", a.username, w.env);
    if endpoint.Err? then e == BadSecret(endpoint.error)
    else if username.Err? then e == BadSecret(username.error)
    else if a.password == "" && a.passwordFile != "" then
      a.passwordFile !in w.files && e == NoPasswordFile(a.passwordFile)
    else if Secret("password", a.password, w.env).Err? then
      e == BadSecret(Secret("password", a.password, w.env).error)
    else ResolveFlag(a.skipVerify, w) == Err(e)
  }

  /** Each credential of a resolved entry is what its own text resolves to, the password file's text when there
      is one; nothing else changes. An entry fails with its first field that cannot be resolved. */
  lemma ResolvedFields(a: ArrayConfig, w: World)
    ensures ResolveArray(a, w).Ok? ==>
      var b := ResolveArray(a, w).value;
      && Secret("endpoint", a.endpoint, w.env) == Ok(b.endpoint)
      && Secret("username", a.username, w.env) == Ok(b.username) && Finishes(a, b, w)
      && b.name == a.name && b.passwordFile == a.passwordFile && b.maxConcurrency == a.maxConcurrency
    ensures ResolveArray(a, w).Err? ==> FailsFirst(a, ResolveArray(a, w).error, w)
  {
    if CredentialsResolve(a, w) {
      PasswordFinishes(a.(endpoint := Secret("endpoint", a.endpoint, w.env).value,
                          username := Secret("username", a.username, w.env).value), w);
    }
  }

  /** What resolution keeps: the name always, and no credential becomes blank unless it was left out
      (a password file may still be empty). */
  lemma ResolvedArray(a: ArrayConfig, w: World)
    requires ResolveArray(a, w).Ok?
    ensures var b := ResolveArray(a, w).value;
      && b.name == a.name && b.maxConcurrency == a.maxConcurrency
      && (b.endpoint == "" <==> a.endpoint == "") && (b.username == "" <==> a.username == "")
      && (!PasswordFromFile(a) ==> (b.password == "" <==> a.password == ""))
  {
    ResolvedFields(a, w);
    SecretNeverBlank("endpoint", a.endpoint, w.env);
    SecretNeverBlank("username", a.username, w.env);
    SecretNeverBlank("password", a.password, w.env);
  }

  /** A flag counts as written if and only if the password is not read from a file, or the flag already has
      the value its text stands for. */
  lemma FlagHonouredIff(a: ArrayConfig, w: World)
    requires ResolveArray(a, w).Ok?
    ensures ResolveFlag(a.skipVerify, w) == Ok(ResolveArray(a, w).value.skipVerify)
      <==> !PasswordFromFile(a) || ResolveFlag(a.skipVerify, w) == Ok(a.skipVerify)
  {
  }

  /** A flag whose text does not resolve is accepted if and only if the password is read from a file. */
  lemma BadFlagAcceptedIff(a: ArrayConfig, w: World)
    requires CredentialsResolve(a, w) && ResolveFlag(a.skipVerify, w).Err?
    ensures ResolveArray(a, w).Ok? <==> PasswordFromFile(a)
  {
  }

  lemma PlainSecret(field: string, c: char, env: Env)
    ensures Secret(field, [c], env) == Ok([c])
  {
    assert [c][1..] == "" && MatchAt([c]).NotFound?;
    assert Scan([c]) == [Lit([c])];
    SecretNeverBlank(field, [c], env);
  }

  lemma FlagReference(env: Env)
    ensures Scan("${V}") == [Ref("V", None)]
    ensures Meaning(Scan("${V}"), env) == (if "V" in env then Ok(env["V"]) else Err(["V"]))
  {
    var t := [Ref("V", None)];
    assert t[1..] == [] && Print(t) == "${V}" + "" == "${V}";
    assert Canonical(t);
    ScanPrint(t);
    assert Text(t, env) == Value(t[0], env) + "" == Value(t[0], env);
    assert MissingNames(t, env) == Missing(t[0], env) + [] == Missing(t[0], env);
  }

  /** A password file beside a flag that refers to a variable: unset, the reference is accepted all the
      same; set to a true value, it leaves the flag false. */
  lemma FlagIgnored(parseBool: string -> Option<bool>)
    requires parseBool("1") == Some(true)
    ensures var a := ArrayConfig("n", "e", "u", "", "f", EnvBool("${V}", false), 0);
      var unset, set1 := World(map[], map["f" := "p"], parseBool), World(map["V" := "1"], map["f" := "p"], parseBool);
      && ResolveFlag(a.skipVerify, unset).Err? && ResolveArray(a, unset) == Ok(a.(password := "p"))
      && ResolveFlag(a.skipVerify, set1) == Ok(EnvBool("${V}", true))
      && ResolveArray(a, set1) == Ok(a.(password := "p"))
  {
    FlagReference(map[]);
    FlagReference(map["V" := "1"]);
    PlainSecret("endpoint", 'e', map[]);
    PlainSecret("username", 'u', map[]);
    PlainSecret("endpoint", 'e', map["V" := "1"]);
    PlainSecret("username", 'u', map["V" := "1"]);
  }

  // ---------------------------------------------------------------- validation

  function NamesOf(arrays: seq<ArrayConfig>): (names: seq<string>)
    ensures |names| == |arrays| && forall i :: 0 <= i < |arrays| ==> names[i] == arrays[i].name
  {
    seq(|arrays|, i requires 0 <= i < |arrays| => arrays[i].name)
  }

  predicate Complete(a: ArrayConfig)
  {
    a.name != "" && a.endpoint != "" && a.username != "" && a.password != "" && a.maxConcurrency >= 0
  }

  predicate ValidArrays(arrays: seq<ArrayConfig>)
  {
    arrays != [] && NoDup(NamesOf(arrays)) && forall i :: 0 <= i < |arrays| ==> Complete(arrays[i])
  }

  method ValidateArrays(arrays: seq<ArrayConfig>) returns (ok: bool)
    ensures ok <==> ValidArrays(arrays)
  {
    if arrays == [] {
      return false;
    }
    var seen: set<string> := {};
    ghost var names := NamesOf(arrays);
    for i := 0 to |arrays|
      invariant seen == Elems(names[..i]) && NoDup(names[..i])
      invariant forall j :: 0 <= j < i ==> Complete(arrays[j])
    {
      var a := arrays[i];
      assert names[..i + 1] == names[..i] + [a.name];
      if a.name == "" {
        return false;
      }
      if a.name in seen {
        assert exists j :: 0 <= j < i && names[j] == names[i];
        return false;
      }
      assert Elems(names[..i + 1]) == Elems(names[..i]) + {a.name};
      seen := seen + {a.name};
      if a.endpoint == "" || a.username == "" || a.password == "" || a.maxConcurrency < 0 {
        assert !Complete(arrays[i]);
        return false;
      }
    }
    assert names[..|arrays|] == names;
    return true;
  }

  // ---------------------------------------------------------------- hot swap

  /** A set inclusion between sets of one size is an equality. */
  lemma SubsetOfSameSize<T>(a: set<T>, b: set<T>)
    requires a <= b && |a| == |b|
    ensures a == b
  {
    if a != b {
      var x :| x in b && x !in a;
      assert a <= b - {x} && |b - {x}| == |b| - 1;
      SubsetSize(a, b - {x});
    }
  }

  lemma {:induction false} SubsetSize<T>(a: set<T>, b: set<T>)
    requires a <= b
    ensures |a| <= |b|
  {
    if a != {} {
      var x :| x in a;
      SubsetSize(a - {x}, b - {x});
    }
  }

  /** The comparison looks at the sizes and at one inclusion only. */
  method NameSetsEqual(a: set<string>, b: set<string>) returns (equal: bool)
    ensures equal <==> a == b
  {
    if |a| != |b| {
      return false;
    }
    var rest := a;
    while rest != {}
      invariant rest <= a && forall k :: k in a - rest ==> k in b
      decreases rest
    {
      var k :| k in rest;
      if k !in b {
        return false;
      }
      rest := rest - {k};
    }
    SubsetOfSameSize(a, b);
    return true;
  }

  /** What the file yields: decoding may fail, or gives entries that have still to be resolved in the world of
      that moment; the checks outside entries and fan-out limits may fail. */
  datatype Attempt = Unreadable | Decoded(file: Config, world: World, restValid: bool)

  /** The entries resolve, and what they resolve to is valid. */
  predicate Accepted(t: Attempt)
  {
    && t.Decoded? && t.restValid && t.file.maxConcurrency >= 0
    && ResolveAll(t.file.arrays, t.world).Ok? && ValidArrays(ResolveAll(t.file.arrays, t.world).value)
  }

  function Loaded(t: Attempt): (c: Config)
    requires Accepted(t)
  {
    t.file.(arrays := ResolveAll(t.file.arrays, t.world).value)
  }

  /** All entries resolve if and only if each does, and then each to its own value. */
  lemma ResolvedEach(arrays: seq<ArrayConfig>, w: World)
    ensures ResolveAll(arrays, w).Ok? <==> forall i :: 0 <= i < |arrays| ==> ResolveArray(arrays[i], w).Ok?
    ensures ResolveAll(arrays, w).Ok? ==>
      forall i :: 0 <= i < |arrays| ==> ResolveArray(arrays[i], w) == Ok(ResolveAll(arrays, w).value[i])
  {
    SequencedEach(Each(arrays, w));
    assert forall i :: 0 <= i < |arrays| ==> Each(arrays, w)[i] == ResolveArray(arrays[i], w);
  }

  /** The entry as it is written is complete, and everything in it can be had. */
  predicate Usable(a: ArrayConfig, w: World)
  {
    && a.name != "" && a.endpoint != "" && a.username != "" && a.maxConcurrency >= 0 && CredentialsResolve(a, w)
    && if a.password == "" && a.passwordFile != "" then w.files[a.passwordFile] != ""
       else a.password != "" && ResolveFlag(a.skipVerify, w).Ok?
  }

  lemma CompleteIffUsable(a: ArrayConfig, w: World)
    ensures ResolveArray(a, w).Ok? && Complete(ResolveArray(a, w).value) <==> Usable(a, w)
  {
    if ResolveArray(a, w).Ok? {
      ResolvedArray(a, w);
    }
  }

  /** Secret resolution and validation together, of the file as it is written: it is accepted if and only if it
      has entries, their names are distinct, and each entry is usable; and resolution never renames one. */
  lemma AcceptedIff(file: Config, w: World, restValid: bool)
    ensures Accepted(Decoded(file, w, restValid)) <==>
      && restValid && file.maxConcurrency >= 0
      && file.arrays != [] && NoDup(NamesOf(file.arrays))
      && forall i :: 0 <= i < |file.arrays| ==> Usable(file.arrays[i], w)
    ensures Accepted(Decoded(file, w, restValid)) ==>
      NamesOf(Loaded(Decoded(file, w, restValid)).arrays) == NamesOf(file.arrays)
  {
    ResolvedEach(file.arrays, w);
    forall i | 0 <= i < |file.arrays|
      ensures ResolveArray(file.arrays[i], w).Ok? && Complete(ResolveArray(file.arrays[i], w).value)
        <==> Usable(file.arrays[i], w)
      ensures ResolveArray(file.arrays[i], w).Ok? ==> ResolveArray(file.arrays[i], w).value.name == file.arrays[i].name
    {
      CompleteIffUsable(file.arrays[i], w);
      if ResolveArray(file.arrays[i], w).Ok? {
        ResolvedArray(file.arrays[i], w);
      }
    }
    if ResolveAll(file.arrays, w).Ok? {
      assert NamesOf(ResolveAll(file.arrays, w).value) == NamesOf(file.arrays);
    }
  }

  function NameSet(c: Config): set<string>
  {
    Elems(NamesOf(c.arrays))
  }

  class SafeConfig {
    var C: Config

    constructor (cfg: Config)
      ensures C == cfg
    {
      C := cfg;
    }

    method ReloadConfig(t: Attempt) returns (arraysChanged: bool, err: bool)
      modifies this
      ensures err <==> !Accepted(t)
      ensures C == (if Accepted(t) then Loaded(t) else old(C))
      ensures !err ==> NamesOf(C.arrays) == NamesOf(t.file.arrays)
      ensures arraysChanged <==> !err && NameSet(C) != NameSet(old(C))
    {
      if t.Unreadable? {
        return false, true;
      }
      var arrays := new ArrayConfig[|t.file.arrays|](i requires 0 <= i < |t.file.arrays| => t.file.arrays[i]);
      assert arrays[..] == t.file.arrays;
      var resolved := ResolveSecrets(arrays, t.world);
      if resolved.Err? {
        return false, true;
      }
      var newCfg := t.file.(arrays := arrays[..]);
      var ok := ValidateArrays(newCfg.arrays);
      if !ok || newCfg.maxConcurrency < 0 || !t.restValid {
        return false, true;
      }
      AcceptedIff(t.file, t.world, t.restValid);
      var oldNames := CollectNames(C.arrays);
      var newNames := CollectNames(newCfg.arrays);
      var equal := NameSetsEqual(oldNames, newNames);
      C := newCfg;
      return !equal, false;
    }
  }

  method CollectNames(arrays: seq<ArrayConfig>) returns (names: set<string>)
    ensures names == Elems(NamesOf(arrays))
  {
    names := {};
    ghost var list := NamesOf(arrays);
    for i := 0 to |arrays|
      invariant names == Elems(list[..i])
    {
      assert list[..i + 1] == list[..i] + [arrays[i].name];
      assert Elems(list[..i + 1]) == Elems(list[..i]) + {arrays[i].name};
      names := names + {arrays[i].name};
    }
    assert list[..|arrays|] == list;
  }

  /** What one attempt leads to, if it leads to anything. */
  function Outcome(t: Attempt): Option<Config>
  {
    if Accepted(t) then Some(Loaded(t)) else None
  }

  function Outcomes(attempts: seq<Attempt>): (outcomes: seq<Option<Config>>)
    ensures |outcomes| == |attempts|
  {
    seq(|attempts|, i requires 0 <= i < |attempts| => Outcome(attempts[i]))
  }

  function LastOf(c: Config, outcomes: seq<Option<Config>>): Config
  {
    if outcomes == [] then c
    else
      var last := outcomes[|outcomes| - 1];
      if last.Some? then last.value else LastOf(c, outcomes[..|outcomes| - 1])
  }

  /** The configuration after a series of attempts: each accepted one replaces it. */
  function After(c: Config, attempts: seq<Attempt>): Config
  {
    LastOf(c, Outcomes(attempts))
  }

  /** One more attempt. */
  lemma AfterNext(c: Config, attempts: seq<Attempt>, t: Attempt)
    ensures After(c, attempts + [t]) == if Accepted(t) then Loaded(t) else After(c, attempts)
  {
    assert Outcomes(attempts + [t])[..|attempts|] == Outcomes(attempts);
    assert Outcomes(attempts + [t])[|attempts|] == Outcome(t);
  }

  lemma {:induction false} LastOutcome(c: Config, outcomes: seq<Option<Config>>, k: nat)
    requires k < |outcomes| && outcomes[k].Some? && forall j :: k < j < |outcomes| ==> outcomes[j].None?
    ensures LastOf(c, outcomes) == outcomes[k].value
  {
    var n := |outcomes| - 1;
    if k < n {
      LastOutcome(c, outcomes[..n], k);
    }
  }

  /** After any series of reloads the configuration is the one accepted last, however many rejected
      files came after it, and it is valid if the first one was. */
  lemma LastAcceptedWins(c: Config, attempts: seq<Attempt>, k: nat)
    requires k < |attempts| && Accepted(attempts[k])
    requires forall j :: k < j < |attempts| ==> !Accepted(attempts[j])
    ensures After(c, attempts) == Loaded(attempts[k])
  {
    LastOutcome(c, Outcomes(attempts), k);
  }

  lemma {:induction false} AnyOutcome(c: Config, outcomes: seq<Option<Config>>)
    ensures LastOf(c, outcomes) == c ||
      exists k :: 0 <= k < |outcomes| && outcomes[k] == Some(LastOf(c, outcomes))
    ensures (forall k :: 0 <= k < |outcomes| ==> outcomes[k].None?) ==> LastOf(c, outcomes) == c
  {
    if outcomes != [] {
      AnyOutcome(c, outcomes[..|outcomes| - 1]);
    }
  }

  lemma AlwaysValid(c: Config, attempts: seq<Attempt>)
    requires ValidArrays(c.arrays)
    ensures ValidArrays(After(c, attempts).arrays)
    ensures (forall j :: 0 <= j < |attempts| ==> !Accepted(attempts[j])) ==> After(c, attempts) == c
  {
    var outcomes := Outcomes(attempts);
    AnyOutcome(c, outcomes);
    if LastOf(c, outcomes) != c {
      var k :| 0 <= k < |outcomes| && outcomes[k] == Some(LastOf(c, outcomes));
      assert Accepted(attempts[k]);
    }
  }
}
