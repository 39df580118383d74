/** Expansion of environment references (env.go): a scanner over characters against the meaning
    of a template. */
module EnvExpand {
  import opened Prelude

  /** A piece of a template: literal text, or a reference with an optional fallback. */
  datatype Piece = Lit(text: string) | Ref(name: string, fallback: Option<string>)

  type Template = seq<Piece>

  type Env = map<string, string>

  predicate NameStart(c: char)
  {
    'A' <= c <= 'Z' || 'a' <= c <= 'z' || c == '_'
  }

  predicate NameChar(c: char)
  {
    NameStart(c) || '0' <= c <= '9'
  }

  predicate IsName(name: string)
  {
    name != "" && NameStart(name[0]) && forall i :: 0 <= i < |name| ==> NameChar(name[i])
  }

  /** The character classes of the pattern, spelled out. */
  lemma NameChars(c: char)
    ensures NameStart(c) <==> c in "ABCDEFGHIJKLMNOPQRSTUVWXYZ" || c in "abcdefghijklmnopqrstuvwxyz" || c == '_'
    ensures NameChar(c) <==> NameStart(c) || c in "0123456789"
  {
  }

  predicate IsFallback(fallback: Option<string>)
  {
    fallback.Some? ==> '}' !in fallback.value
  }

  function PrintFallback(fallback: Option<string>): string
  {
    if fallback.Some? then [':', '-'] + fallback.value else ""
  }

  function PrintPiece(p: Piece): string
  {
    match p
    case Lit(text) => text
    case Ref(name, fallback) => ['$', '{'] + name + PrintFallback(fallback) + ['}']
  }

  function Print(t: Template): string
  {
    if t == [] then "" else PrintPiece(t[0]) + Print(t[1..])
  }

  // ---------------------------------------------------------------- the regular expression

  /** The text w is one whole reference, as the pattern describes it. */
  ghost predicate Matches(w: string, p: Piece)
  {
    p.Ref? && IsName(p.name) && IsFallback(p.fallback) && w == PrintPiece(p)
  }

  /** The end of the run of name characters that starts at i. */
  function NameEnd(s: string, i: nat): (e: nat)
    requires i <= |s|
    ensures i <= e <= |s| && (forall k :: i <= k < e ==> NameChar(s[k])) && (e < |s| ==> !NameChar(s[e]))
    decreases |s| - i
  {
    if i < |s| && NameChar(s[i]) then NameEnd(s, i + 1) else i
  }

  /** The position of the first closing brace from i on, or the length of s. */
  function BraceAt(s: string, i: nat): (e: nat)
    requires i <= |s|
    ensures i <= e <= |s| && (forall k :: i <= k < e ==> s[k] != '}') && (e < |s| ==> s[e] == '}')
    decreases |s| - i
  {
    if i < |s| && s[i] != '}' then BraceAt(s, i + 1) else i
  }

  datatype Found = NotFound | Found(ref: Piece, end: nat)

  /** The match of the pattern at the beginning of s, if there is one. */
  function MatchAt(s: string): (f: Found)
    ensures f.Found? ==> 3 < f.end <= |s|
  {
    if |s| < 4 || s[0] != '$' || s[1] != '{' || !NameStart(s[2]) then NotFound
    else
      var e := NameEnd(s, 2);
      if e == |s| then NotFound
      else if s[e] == '}' then Found(Ref(s[2..e], None), e + 1)
      else if e + 1 < |s| && s[e] == ':' && s[e + 1] == '-' then
        var b := BraceAt(s, e + 2);
        if b == |s| then NotFound else Found(Ref(s[2..e], Some(s[e + 2..b])), b + 1)
      else NotFound
  }

  lemma NameIsName(s: string)
    requires 2 < |s| && NameStart(s[2])
    ensures IsName(s[2..NameEnd(s, 2)])
  {
    var e := NameEnd(s, 2);
    var name := s[2..e];
    assert forall k :: 0 <= k < |name| ==> name[k] == s[k + 2];
  }

  lemma PrintsBackBare(s: string, e: nat)
    requires 2 <= e < |s| && s[0] == '$' && s[1] == '{' && s[e] == '}'
    ensures s[..e + 1] == PrintPiece(Ref(s[2..e], None))
  {
    var name := s[2..e];
    assert PrintPiece(Ref(name, None)) == ['$', '{'] + name + ['}'];
  }

  lemma PrintsBackFallback(s: string, e: nat, b: nat)
    requires 2 <= e && e + 2 <= b < |s| && s[0] == '$' && s[1] == '{'
    requires s[e] == ':' && s[e + 1] == '-' && s[b] == '}'
    ensures s[..b + 1] == PrintPiece(Ref(s[2..e], Some(s[e + 2..b])))
  {
    assert s[..b + 1] == s[..2] + s[2..e] + (s[e..e + 2] + s[e + 2..b]) + s[b..b + 1];
    assert s[..2] == ['$', '{'] && s[e..e + 2] == [':', '-'] && s[b..b + 1] == ['}'];
  }

  lemma MatchAtSound(s: string)
    requires MatchAt(s).Found?
    ensures Matches(s[..MatchAt(s).end], MatchAt(s).ref)
  {
    var e := NameEnd(s, 2);
    NameIsName(s);
    if s[e] == '}' {
      PrintsBackBare(s, e);
    } else {
      PrintsBackFallback(s, e, BraceAt(s, e + 2));
    }
  }

  /** Wherever a reference begins, the scanner finds it and its length: the pattern leaves no choice. */
  lemma MatchAtComplete(p: Piece, rest: string)
    requires Matches(PrintPiece(p), p)
    ensures MatchAt(PrintPiece(p) + rest) == Found(p, |PrintPiece(p)|)
  {
    var s := PrintPiece(p) + rest;
    var n := |p.name|;
    assert forall k :: 0 <= k < n ==> s[k + 2] == p.name[k];
    assert forall k :: 2 <= k < n + 2 ==> s[k] == p.name[k - 2];
    var e := NameEnd(s, 2);
    assert s[2] == p.name[0];
    assert s[n + 2] == if p.fallback.Some? then ':' else '}';
    assert forall k :: 2 <= k < n + 2 ==> NameChar(s[k]);
    assert e == n + 2 && s[2..e] == p.name;
    if p.fallback.Some? {
      var d := p.fallback.value;
      assert s[n + 3] == '-';
      assert forall k :: 0 <= k < |d| ==> s[n + 4 + k] == d[k];
      assert s[n + 4 + |d|] == '}';
      assert forall k :: n + 4 <= k < n + 4 + |d| ==> s[k] == d[k - n - 4];
      var b := BraceAt(s, n + 4);
      assert b == n + 4 + |d| && s[n + 4..b] == d;
    }
  }

  /** At each position the pattern matches at most one length, and exactly when the scanner says so. */
  lemma MatchIsUnique(s: string, length: nat, p: Piece)
    requires length <= |s|
    ensures Matches(s[..length], p) <==> MatchAt(s) == Found(p, length)
  {
    if Matches(s[..length], p) {
      assert s == PrintPiece(p) + s[length..];
      MatchAtComplete(p, s[length..]);
    }
    if MatchAt(s) == Found(p, length) {
      MatchAtSound(s);
    }
  }

  // ---------------------------------------------------------------- scanning

  function AddChar(c: char, t: Template): Template
  {
    if t != [] && t[0].Lit? then [Lit([c] + t[0].text)] + t[1..] else [Lit([c])] + t
  }

  /** The template a text stands for: leftmost matches, and literal text between them. */
  function Scan(s: string): Template
    decreases |s|
  {
    if s == "" then []
    else
      var f := MatchAt(s);
      if f.Found? then [f.ref] + Scan(s[f.end..]) else AddChar(s[0], Scan(s[1..]))
  }

  /** No text is lost or invented by scanning. */
  lemma {:induction false} PrintScan(s: string)
    ensures Print(Scan(s)) == s
    decreases |s|
  {
    if s != "" {
      var f := MatchAt(s);
      if f.Found? {
        MatchAtSound(s);
        PrintScan(s[f.end..]);
        assert Scan(s)[0] == f.ref && Scan(s)[1..] == Scan(s[f.end..]);
        assert s == s[..f.end] + s[f.end..];
      } else {
        PrintScan(s[1..]);
        PrintAddChar(s[0], Scan(s[1..]));
        assert s == [s[0]] + s[1..];
      }
    }
  }

  lemma PrintAddChar(c: char, t: Template)
    ensures Print(AddChar(c, t)) == [c] + Print(t)
  {
    var u := AddChar(c, t);
    if t != [] && t[0].Lit? {
      assert u[0] == Lit([c] + t[0].text) && u[1..] == t[1..];
      assert [c] + t[0].text + Print(t[1..]) == [c] + (t[0].text + Print(t[1..]));
    } else {
      assert u[0] == Lit([c]) && u[1..] == t;
    }
  }

  predicate NoOpening(text: string)
  {
    forall i :: 0 <= i < |text| - 1 ==> !(text[i] == '$' && text[i + 1] == '{')
  }

  /** Non-empty literals without an opening brace pair, no two of them side by side, and
      references that the pattern accepts. */
  predicate Canonical(t: Template)
  {
    forall i :: 0 <= i < |t| ==> CanonicalAt(t, i)
  }

  predicate CanonicalAt(t: Template, i: nat)
    requires i < |t|
  {
    match t[i]
    case Lit(text) => text != "" && NoOpening(text) && (i + 1 < |t| ==> t[i + 1].Ref?)
    case Ref(name, fallback) => IsName(name) && IsFallback(fallback)
  }

  lemma CanonicalTail(t: Template)
    requires Canonical(t) && t != []
    ensures Canonical(t[1..])
  {
    forall i | 0 <= i < |t[1..]|
      ensures CanonicalAt(t[1..], i)
    {
      assert CanonicalAt(t, i + 1);
    }
  }

  /** No match begins inside a literal. */
  lemma NoMatchInLiteral(text: string, rest: Template)
    requires text != "" && NoOpening(text) && (rest != [] ==> rest[0].Ref?)
    ensures MatchAt(text + Print(rest)).NotFound?
  {
    var s := text + Print(rest);
    if |s| >= 2 {
      if |text| >= 2 {
        assert s[0] == text[0] && s[1] == text[1];
      } else if rest != [] {
        assert s[1] == PrintPiece(rest[0])[0] == '$';
      }
    }
  }

  lemma NoOpeningTail(text: string)
    requires text != "" && NoOpening(text)
    ensures NoOpening(text[1..])
  {
    var tail := text[1..];
    forall i | 0 <= i < |tail| - 1
      ensures !(tail[i] == '$' && tail[i + 1] == '{')
    {
      assert tail[i] == text[i + 1] && tail[i + 1] == text[i + 2];
    }
  }

  lemma AddCharToLiteral(c: char, tail: string, rest: Template)
    requires rest != [] ==> rest[0].Ref?
    ensures AddChar(c, [Lit(tail)] + rest) == [Lit([c] + tail)] + rest && AddChar(c, rest) == [Lit([c])] + rest
  {
    assert ([Lit(tail)] + rest)[1..] == rest;
  }

  lemma ScanLiteralChar(text: string, rest: Template)
    requires text != "" && NoOpening(text) && (rest != [] ==> rest[0].Ref?)
    ensures Scan(text + Print(rest)) == AddChar(text[0], Scan(text[1..] + Print(rest)))
  {
    NoMatchInLiteral(text, rest);
    CharInFront(text, Print(rest));
    ScanNoMatch(text + Print(rest));
  }

  lemma CharInFront(text: string, more: string)
    requires text != ""
    ensures (text + more)[0] == text[0] && (text + more)[1..] == text[1..] + more
  {
  }

  lemma ScanNoMatch(s: string)
    requires s != "" && MatchAt(s).NotFound?
    ensures Scan(s) == AddChar(s[0], Scan(s[1..]))
  {
  }

  lemma {:induction false} ScanLiteral(text: string, rest: Template)
    requires text != "" && NoOpening(text) && (rest != [] ==> rest[0].Ref?)
    requires Scan(Print(rest)) == rest
    ensures Scan(text + Print(rest)) == [Lit(text)] + rest
    decreases |text|
  {
    var tail := text[1..];
    ScanLiteralChar(text, rest);
    AddCharToLiteral(text[0], tail, rest);
    assert text == [text[0]] + tail;
    if tail == "" {
      assert tail + Print(rest) == Print(rest) && text == [text[0]];
    } else {
      NoOpeningTail(text);
      ScanLiteral(tail, rest);
    }
  }

  /** Scanning the printed form of a template gives the template back. */
  lemma {:induction false} ScanPrint(t: Template)
    requires Canonical(t)
    ensures Scan(Print(t)) == t
    decreases |t|
  {
    if t != [] {
      CanonicalTail(t);
      ScanPrint(t[1..]);
      assert t == [t[0]] + t[1..] && CanonicalAt(t, 0);
      match t[0] {
        case Lit(text) =>
          ScanLiteral(text, t[1..]);
        case Ref(name, fallback) =>
          MatchAtComplete(t[0], Print(t[1..]));
          var s := PrintPiece(t[0]) + Print(t[1..]);
          assert s[|PrintPiece(t[0])|..] == Print(t[1..]);
      }
    }
  }

  // ---------------------------------------------------------------- meaning

  /** The value of one piece: a set non-empty variable wins over the fallback. */
  function Value(p: Piece, env: Env): string
  {
    match p
    case Lit(text) => text
    case Ref(name, fallback) =>
      if name in env && env[name] != "" then env[name]
      else if fallback.Some? then fallback.value
      else ""
  }

  function Missing(p: Piece, env: Env): seq<string>
  {
    if p.Ref? && p.name !in env && p.fallback.None? then [p.name] else []
  }

  function Text(t: Template, env: Env): string
  {
    if t == [] then "" else Value(t[0], env) + Text(t[1..], env)
  }

  /** The bare references to unset variables, in the order they are written. */
  function MissingNames(t: Template, env: Env): seq<string>
  {
    if t == [] then [] else Missing(t[0], env) + MissingNames(t[1..], env)
  }

  function Meaning(t: Template, env: Env): Result<string, seq<string>>
  {
    if MissingNames(t, env) == [] then Ok(Text(t, env)) else Err(MissingNames(t, env))
  }

  /** What a text expands to. */
  function Expand(s: string, env: Env): Result<string, seq<string>>
  {
    Meaning(Scan(s), env)
  }

  lemma AddCharMeaning(c: char, t: Template, env: Env)
    ensures Text(AddChar(c, t), env) == [c] + Text(t, env) && MissingNames(AddChar(c, t), env) == MissingNames(t, env)
  {
    var u := AddChar(c, t);
    if t != [] && t[0].Lit? {
      assert u[0] == Lit([c] + t[0].text) && u[1..] == t[1..];
      assert [c] + t[0].text + Text(t[1..], env) == [c] + (t[0].text + Text(t[1..], env));
    } else {
      assert u[0] == Lit([c]) && u[1..] == t;
    }
  }

  /** What the beginning of a text contributes to its meaning. */
  lemma ScanMeaning(s: string, env: Env)
    requires s != ""
    ensures var f := MatchAt(s);
      if f.Found? then
        Text(Scan(s), env) == Value(f.ref, env) + Text(Scan(s[f.end..]), env) &&
        MissingNames(Scan(s), env) == Missing(f.ref, env) + MissingNames(Scan(s[f.end..]), env)
      else
        Text(Scan(s), env) == [s[0]] + Text(Scan(s[1..]), env) &&
        MissingNames(Scan(s), env) == MissingNames(Scan(s[1..]), env)
  {
    var f := MatchAt(s);
    if f.Found? {
      assert Scan(s)[0] == f.ref && Scan(s)[1..] == Scan(s[f.end..]);
    } else {
      AddCharMeaning(s[0], Scan(s[1..]), env);
    }
  }

  /** The replacement callback for one match: its text, and its name if it is missing. */
  method Replace(p: Piece, env: Env) returns (added: string, unset: seq<string>)
    requires p.Ref?
    ensures added == Value(p, env) && unset == Missing(p, env)
  {
    added, unset := "", [];
    if p.name in env && env[p.name] != "" {
      added := env[p.name];
    } else if p.fallback.Some? {
      added := p.fallback.value;
    } else if p.name !in env {
      unset := [p.name];
    }
  }

  /** The next match or the next literal character: what it adds, and how far it reaches. */
  method Next(s: string, env: Env) returns (added: string, unset: seq<string>, end: nat)
    requires s != ""
    ensures 1 <= end <= |s|
    ensures Text(Scan(s), env) == added + Text(Scan(s[end..]), env)
    ensures MissingNames(Scan(s), env) == unset + MissingNames(Scan(s[end..]), env)
  {
    var f := MatchAt(s);
    ScanMeaning(s, env);
    if f.Found? {
      added, unset := Replace(f.ref, env);
      end := f.end;
    } else {
      added, unset, end := [s[0]], [], 1;
    }
  }

  /** ExpandEnv: one pass from left to right; the text a variable brings in is not looked at again. */
  method ExpandEnv(s: string, env: Env) returns (r: Result<string, seq<string>>)
    ensures r == Expand(s, env)
  {
    var rest, out, missing := s, "", [];
    while rest != ""
      invariant Text(Scan(s), env) == out + Text(Scan(rest), env)
      invariant MissingNames(Scan(s), env) == missing + MissingNames(Scan(rest), env)
      decreases |rest|
    {
      var added, unset, end := Next(rest, env);
      ConcatAssoc(out, added, Text(Scan(rest[end..]), env));
      ConcatAssoc(missing, unset, MissingNames(Scan(rest[end..]), env));
      out, missing, rest := out + added, missing + unset, rest[end..];
    }
    assert Text(Scan(s), env) == out && MissingNames(Scan(s), env) == missing;
    r := if missing == [] then Ok(out) else Err(missing);
  }

  /** Expanding the printed form of a template gives the template's meaning. */
  lemma ExpandPrinted(t: Template, env: Env)
    requires Canonical(t)
    ensures Expand(Print(t), env) == Meaning(t, env)
  {
    ScanPrint(t);
  }

  // ---------------------------------------------------------------- expansion of texts, piece by piece

  function Joined(x: Result<string, seq<string>>, y: Result<string, seq<string>>): Result<string, seq<string>>
  {
    if x.Ok? && y.Ok? then Ok(x.value + y.value)
    else Err((if x.Err? then x.error else []) + (if y.Err? then y.error else []))
  }

  lemma {:induction false} TextConcat(t: Template, u: Template, env: Env)
    ensures Text(t + u, env) == Text(t, env) + Text(u, env)
  {
    if t == [] {
      assert t + u == u;
    } else {
      assert (t + u)[1..] == t[1..] + u;
      TextConcat(t[1..], u, env);
      ConcatAssoc(Value(t[0], env), Text(t[1..], env), Text(u, env));
    }
  }

  lemma {:induction false} MissingConcat(t: Template, u: Template, env: Env)
    ensures MissingNames(t + u, env) == MissingNames(t, env) + MissingNames(u, env)
  {
    if t == [] {
      assert t + u == u;
    } else {
      assert (t + u)[1..] == t[1..] + u;
      MissingConcat(t[1..], u, env);
      ConcatAssoc(Missing(t[0], env), MissingNames(t[1..], env), MissingNames(u, env));
    }
  }

  lemma MeaningConcat(t: Template, u: Template, env: Env)
    ensures Meaning(t + u, env) == Joined(Meaning(t, env), Meaning(u, env))
  {
    TextConcat(t, u, env);
    MissingConcat(t, u, env);
  }

  lemma {:induction false} PrintConcat(t: Template, u: Template)
    ensures Print(t + u) == Print(t) + Print(u)
  {
    if t == [] {
      assert t + u == u;
    } else {
      assert (t + u)[1..] == t[1..] + u;
      PrintConcat(t[1..], u);
    }
  }

  lemma CanonicalParts(t: Template, u: Template)
    requires Canonical(t + u)
    ensures Canonical(t) && Canonical(u)
  {
    forall i: nat | i < |t|
      ensures CanonicalAt(t, i)
    {
      assert CanonicalAt(t + u, i);
    }
    forall i: nat | i < |u|
      ensures CanonicalAt(u, i)
    {
      assert CanonicalAt(t + u, |t| + i);
    }
  }

  /** Text after text expands to expansion after expansion, and the errors of both are reported. */
  lemma ExpandConcat(t: Template, u: Template, env: Env)
    requires Canonical(t + u)
    ensures Expand(Print(t) + Print(u), env) == Joined(Expand(Print(t), env), Expand(Print(u), env))
  {
    CanonicalParts(t, u);
    PrintConcat(t, u);
    ExpandPrinted(t + u, env);
    ExpandPrinted(t, env);
    ExpandPrinted(u, env);
    MeaningConcat(t, u, env);
  }

  lemma MeaningOfOne(p: Piece, env: Env)
    ensures Text([p], env) == Value(p, env) && MissingNames([p], env) == Missing(p, env)
  {
    assert [p][1..] == [];
    assert Value(p, env) + "" == Value(p, env) && Missing(p, env) + [] == Missing(p, env);
  }

  lemma ExpandOne(p: Piece, env: Env)
    requires p.Ref? && IsName(p.name) && IsFallback(p.fallback)
    ensures Expand(PrintPiece(p), env) == if Missing(p, env) == [] then Ok(Value(p, env)) else Err(Missing(p, env))
  {
    assert Canonical([p]) && [p][1..] == [];
    assert Print([p]) == PrintPiece(p) + "" == PrintPiece(p);
    ExpandPrinted([p], env);
    MeaningOfOne(p, env);
  }

  lemma ExpandBare(name: string, env: Env)
    requires IsName(name)
    ensures Expand("${" + name + "}", env) == if name in env then Ok(env[name]) else Err([name])
  {
    ExpandOne(Ref(name, None), env);
    assert PrintPiece(Ref(name, None)) == "${" + name + "}";
  }

  lemma ExpandWithFallback(name: string, env: Env, d: string)
    requires IsName(name) && '}' !in d
    ensures Expand("${" + name + ":-" + d + "}", env) == Ok(if name in env && env[name] != "" then env[name] else d)
  {
    ExpandOne(Ref(name, Some(d)), env);
    assert PrintPiece(Ref(name, Some(d))) == "${" + name + ":-" + d + "}";
  }

  /** A set, non-empty variable stands for its value, with or without a fallback. Otherwise a fallback stands
      for itself; and without one an empty variable stands for nothing, and an unset one is an error. */
  lemma ExpandReference(name: string, env: Env, d: string)
    requires IsName(name) && '}' !in d
    ensures Expand("${" + name + "}", env) == if name in env then Ok(env[name]) else Err([name])
    ensures Expand("${" + name + ":-" + d + "}", env) == Ok(if name in env && env[name] != "" then env[name] else d)
  {
    ExpandBare(name, env);
    ExpandWithFallback(name, env, d);
  }

  /** Text without any reference stands for itself. */
  lemma ExpandLiteral(text: string, env: Env)
    requires !HasRef(Scan(text))
    ensures Expand(text, env) == Ok(text)
  {
    NoRefIsLiteral(Scan(text), env);
    PrintScan(text);
  }

  /** The template with another piece at one place. */
  lemma MeaningAround(t: Template, p: Piece, u: Template, env: Env)
    ensures Meaning(t + [p] + u, env) == Joined(Joined(Meaning(t, env), Meaning([p], env)), Meaning(u, env))
  {
    MeaningConcat(t, [p], env);
    MeaningConcat(t + [p], u, env);
  }

  /** Anywhere in a text, dropping or changing the fallback of a set, non-empty variable changes nothing. */
  lemma FallbackIgnored(t: Template, name: string, f: Option<string>, g: Option<string>, u: Template, env: Env)
    requires Canonical(t + [Ref(name, f)] + u) && Canonical(t + [Ref(name, g)] + u)
    requires name in env && env[name] != ""
    ensures Expand(Print(t + [Ref(name, f)] + u), env) == Expand(Print(t + [Ref(name, g)] + u), env)
  {
    ExpandPrinted(t + [Ref(name, f)] + u, env);
    ExpandPrinted(t + [Ref(name, g)] + u, env);
    MeaningAround(t, Ref(name, f), u, env);
    MeaningAround(t, Ref(name, g), u, env);
    MeaningOfOne(Ref(name, f), env);
    MeaningOfOne(Ref(name, g), env);
  }

  /** Anywhere in a text, a reference to an unset or empty variable may be replaced by its own fallback. */
  lemma FallbackTaken(t: Template, name: string, d: string, u: Template, env: Env)
    requires Canonical(t + [Ref(name, Some(d))] + u) && Canonical(t + [Lit(d)] + u)
    requires name !in env || env[name] == ""
    ensures Expand(Print(t + [Ref(name, Some(d))] + u), env) == Expand(Print(t + [Lit(d)] + u), env)
  {
    ExpandPrinted(t + [Ref(name, Some(d))] + u, env);
    ExpandPrinted(t + [Lit(d)] + u, env);
    MeaningAround(t, Ref(name, Some(d)), u, env);
    MeaningAround(t, Lit(d), u, env);
    MeaningOfOne(Ref(name, Some(d)), env);
    MeaningOfOne(Lit(d), env);
  }

  predicate BareUnset(p: Piece, env: Env)
  {
    p.Ref? && p.fallback.None? && p.name !in env
  }

  /** These places of the template, in order, are its bare references to unset variables. */
  predicate UnsetAt(t: Template, env: Env, places: seq<nat>)
  {
    && (forall i, j :: 0 <= i < j < |places| ==> places[i] < places[j])
    && (forall k :: 0 <= k < |places| ==> places[k] < |t|)
    && forall i :: 0 <= i < |t| ==> (i in places <==> BareUnset(t[i], env))
  }

  predicate NamesAt(t: Template, places: seq<nat>, names: seq<string>)
  {
    |names| == |places| &&
    forall k :: 0 <= k < |places| ==> places[k] < |t| && t[places[k]].Ref? && names[k] == t[places[k]].name
  }

  lemma UnsetSnoc(t: Template, env: Env, places: seq<nat>, p: Piece)
    requires UnsetAt(t, env, places)
    ensures UnsetAt(t + [p], env, if BareUnset(p, env) then places + [|t|] else places)
  {
    var all := if BareUnset(p, env) then places + [|t|] else places;
    assert forall k :: 0 <= k < |places| ==> places[k] in places && places[k] < |t|;
    forall i | 0 <= i < |t + [p]|
      ensures i in all <==> BareUnset((t + [p])[i], env)
    {
      assert i in all <==> i in places || (i == |t| && BareUnset(p, env));
    }
  }

  lemma MissingSnoc(t: Template, p: Piece, env: Env)
    ensures MissingNames(t + [p], env) == MissingNames(t, env) + if BareUnset(p, env) then [p.name] else []
  {
    MissingConcat(t, [p], env);
    MeaningOfOne(p, env);
  }

  lemma NamesSnoc(t: Template, places: seq<nat>, names: seq<string>, p: Piece)
    requires NamesAt(t, places, names)
    ensures NamesAt(t + [p], places, names)
    ensures p.Ref? ==> NamesAt(t + [p], places + [|t|], names + [p.name])
  {
  }

  /** The places among the first pieces, and the last piece's if it is one more. */
  lemma PlacesSnoc(t: Template, env: Env, places: seq<nat>, p: Piece)
    requires UnsetAt(t, env, places) && NamesAt(t, places, MissingNames(t, env))
    ensures var all := if BareUnset(p, env) then places + [|t|] else places;
      UnsetAt(t + [p], env, all) && NamesAt(t + [p], all, MissingNames(t + [p], env))
  {
    UnsetSnoc(t, env, places, p);
    NamesSnoc(t, places, MissingNames(t, env), p);
    MissingSnoc(t, p, env);
  }

  lemma {:induction false} MissingAt(t: Template, env: Env) returns (places: seq<nat>)
    ensures UnsetAt(t, env, places) && NamesAt(t, places, MissingNames(t, env))
  {
    if t == [] {
      places := [];
    } else {
      var u, p := t[..|t| - 1], t[|t| - 1];
      var rest := MissingAt(u, env);
      assert t == u + [p];
      PlacesSnoc(u, env, rest, p);
      places := if BareUnset(p, env) then rest + [|u|] else rest;
    }
  }

  /** The error lists the bare references to unset variables, all of them and in the order they are written. */
  lemma ErrorListsUnset(s: string, env: Env)
    requires Expand(s, env).Err?
    ensures exists places :: UnsetAt(Scan(s), env, places) && NamesAt(Scan(s), places, Expand(s, env).error)
  {
    var places := MissingAt(Scan(s), env);
  }

  /** The expansion fails exactly when some bare reference is to an unset variable. */
  lemma {:induction false} FailsIff(t: Template, env: Env)
    ensures Meaning(t, env).Err? <==> exists i :: 0 <= i < |t| && BareUnset(t[i], env)
  {
    if t != [] {
      FailsIff(t[1..], env);
      if exists i :: 0 <= i < |t[1..]| && BareUnset(t[1..][i], env) {
        var i :| 0 <= i < |t[1..]| && BareUnset(t[1..][i], env);
        assert t[i + 1] == t[1..][i];
      }
      if exists i :: 0 < i < |t| && BareUnset(t[i], env) {
        var i :| 0 < i < |t| && BareUnset(t[i], env);
        assert t[1..][i - 1] == t[i];
      }
    }
  }

  // ---------------------------------------------------------------- credentials

  predicate HasRef(t: Template)
  {
    exists i :: 0 <= i < |t| && t[i].Ref?
  }

  datatype SecretError = Unset(names: seq<string>) | Empty(field: string)

  /** ExpandEnvSecret: a credential written as a reference must not come out empty. */
  method ExpandEnvSecret(field: string, s: string, env: Env) returns (r: Result<string, SecretError>)
    ensures r == Secret(field, s, env)
  {
    var out := ExpandEnv(s, env);
    if out.Err? {
      return Err(Unset(out.error));
    }
    if out.value == "" && HasRef(Scan(s)) {
      return Err(Empty(field));
    }
    return Ok(out.value);
  }

  function Secret(field: string, s: string, env: Env): Result<string, SecretError>
  {
    match Expand(s, env)
    case Err(names) => Err(Unset(names))
    case Ok(out) => if out == "" && HasRef(Scan(s)) then Err(Empty(field)) else Ok(out)
  }

  lemma {:induction false} NoRefIsLiteral(t: Template, env: Env)
    requires !HasRef(t)
    ensures Meaning(t, env) == Ok(Print(t))
  {
    if t != [] {
      assert t[0].Lit? && forall i :: 0 <= i < |t[1..]| ==> t[1..][i] == t[i + 1];
      NoRefIsLiteral(t[1..], env);
    }
  }

  /** A credential comes out empty only if it was left out; one without a reference is untouched. */
  lemma SecretNeverBlank(field: string, s: string, env: Env)
    ensures Secret(field, s, env) == Ok("") <==> s == ""
    ensures !HasRef(Scan(s)) ==> Secret(field, s, env) == Ok(s)
  {
    PrintScan(s);
    if !HasRef(Scan(s)) {
      NoRefIsLiteral(Scan(s), env);
    }
  }

  /** A credential is what its text expands to; it is refused as empty exactly when something written comes out
      as nothing. */
  lemma SecretIsExpansion(field: string, s: string, env: Env)
    ensures Secret(field, s, env) == match Expand(s, env)
      case Err(names) => Err(Unset(names))
      case Ok(out) => if s != "" && out == "" then Err(Empty(field)) else Ok(out)
  {
    PrintScan(s);
    if !HasRef(Scan(s)) {
      NoRefIsLiteral(Scan(s), env);
    }
  }
}
