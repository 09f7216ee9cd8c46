/** Substitution of variable references in prompt templates. */
module Templates {

  predicate IsWord(c: char) {
    '0' <= c <= '9' || 'A' <= c <= 'Z' || 'a' <= c <= 'z' || c == '_'
  }

  /** Length of the longest run of word characters at the front of `s`. */
  function WordLength(s: string): (n: nat)
    ensures n <= |s|
    ensures forall k :: 0 <= k < n ==> IsWord(s[k])
    ensures n < |s| ==> !IsWord(s[n])
  {
    if s == "" || !IsWord(s[0]) then 0
    else
      var n := WordLength(s[1..]);
      assert forall k :: 1 <= k < n + 1 ==> s[k] == s[1..][k - 1];
      n + 1
  }

  /** Length of the name if `s` starts with a reference: dollar, brace, name, brace. Zero if it does not. */
  function ReferenceName(s: string): (n: nat)
    ensures n > 0 ==> |s| >= n + 3
  {
    if |s| < 4 || s[0] != '$' || s[1] != '{' then 0
    else
      var n := WordLength(s[2..]);
      if n > 0 && n + 2 < |s| && s[n + 2] == '}' then n else 0
  }

  datatype Token = Literal(c: char) | Reference(name: string)

  function TokenAt(s: string): Token
    requires s != ""
  {
    var n := ReferenceName(s);
    if n > 0 then Reference(s[2..n + 2]) else Literal(s[0])
  }

  function TokenLength(s: string): (n: nat)
    requires s != ""
    ensures 0 < n <= |s|
  {
    var n := ReferenceName(s);
    if n > 0 then n + 3 else 1
  }

  function Tokens(s: string): seq<Token> {
    if s == "" then [] else [TokenAt(s)] + Tokens(s[TokenLength(s)..])
  }

  function UnparseOne(t: Token): string {
    match t
    case Literal(c) => [c]
    case Reference(name) => "${" + name + "}"
  }

  function Unparse(ts: seq<Token>): string {
    if ts == [] then "" else UnparseOne(ts[0]) + Unparse(ts[1..])
  }

  lemma TokenIsText(s: string)
    requires s != ""
    ensures UnparseOne(TokenAt(s)) == s[..TokenLength(s)]
  {
    hide WordLength;
    var n := ReferenceName(s);
    if n > 0 {
      assert s[..n + 3] == s[..2] + s[2..n + 2] + s[n + 2..n + 3];
      assert s[..2] == "${" && s[n + 2..n + 3] == "}" by { ReferenceShape(s); }
    }
  }

  lemma ReferenceShape(s: string)
    requires ReferenceName(s) > 0
    ensures var n := ReferenceName(s); s[..2] == "${" && s[n + 2..n + 3] == "}"
  {
  }

  /** The reading of a template loses nothing. */
  lemma {:induction false} UnparseTokens(s: string)
    ensures Unparse(Tokens(s)) == s
  {
    hide TokenAt, TokenLength, UnparseOne;
    if s != "" {
      UnparseTokens(s[TokenLength(s)..]);
      TokenIsText(s);
      var ts := Tokens(s[TokenLength(s)..]);
      assert ([TokenAt(s)] + ts)[1..] == ts;
      assert s == s[..TokenLength(s)] + s[TokenLength(s)..];
    }
  }

  function References(ts: seq<Token>): seq<string> {
    if ts == [] then []
    else (if ts[0].Reference? then [ts[0].name] else []) + References(ts[1..])
  }

  function FillOne(t: Token, vars: map<string, string>): string {
    if t.Reference? && t.name in vars then vars[t.name] else UnparseOne(t)
  }

  /** The text with every defined reference replaced by its value. */
  function Fill(ts: seq<Token>, vars: map<string, string>): string {
    if ts == [] then "" else FillOne(ts[0], vars) + Fill(ts[1..], vars)
  }

  function UndefinedOne(t: Token, vars: map<string, string>): seq<string> {
    if t.Reference? && t.name !in vars then [t.name] else []
  }

  /** References without a value, in order. */
  function Undefined(ts: seq<Token>, vars: map<string, string>): seq<string> {
    if ts == [] then [] else UndefinedOne(ts[0], vars) + Undefined(ts[1..], vars)
  }

  datatype Filled = Filled(text: string) | Missing(names: seq<string>)

  function Subst(template: string, vars: map<string, string>): Filled {
    var missing := Undefined(Tokens(template), vars);
    if missing == [] then Filled(Fill(Tokens(template), vars)) else Missing(missing)
  }

  lemma TokensFrom(s: string, i: nat)
    requires i < |s|
    ensures i + TokenLength(s[i..]) <= |s|
    ensures Tokens(s[i..]) == [TokenAt(s[i..])] + Tokens(s[i + TokenLength(s[i..])..])
  {
    hide TokenAt, TokenLength;
    assert s[i..][TokenLength(s[i..])..] == s[i + TokenLength(s[i..])..];
  }

  lemma OneMore(t: Token, ts: seq<Token>, vars: map<string, string>)
    ensures Fill([t] + ts, vars) == FillOne(t, vars) + Fill(ts, vars)
    ensures Undefined([t] + ts, vars) == UndefinedOne(t, vars) + Undefined(ts, vars)
  {
    hide FillOne, UndefinedOne;
    assert ([t] + ts)[1..] == ts;
  }

  method SubstVars(template: string, vars: map<string, string>) returns (r: Filled)
    ensures r == Subst(template, vars)
  {
    hide TokenAt, TokenLength, UnparseOne, Fill, Undefined, Tokens;
    var result, undefined := "", [];
    var i := 0;
    assert template[0..] == template;
    while i < |template|
      invariant 0 <= i <= |template|
      invariant Fill(Tokens(template), vars) == result + Fill(Tokens(template[i..]), vars)
      invariant Undefined(Tokens(template), vars) == undefined + Undefined(Tokens(template[i..]), vars)
      decreases |template| - i
    {
      var t := TokenAt(template[i..]);
      TokensFrom(template, i);
      i := i + TokenLength(template[i..]);
      OneMore(t, Tokens(template[i..]), vars);
      if t.Reference? {
        if t.name in vars {
          result := result + vars[t.name];
        } else {
          undefined := undefined + [t.name];
          result := result + UnparseOne(t);
        }
      } else {
        result := result + UnparseOne(t);
      }
    }
    assert template[i..] == "";
    NothingLeft(vars);
    r := if undefined == [] then Filled(result) else Missing(undefined);
  }

  lemma NothingLeft(vars: map<string, string>)
    ensures Fill(Tokens(""), vars) == "" && Undefined(Tokens(""), vars) == []
  {
  }

  lemma {:induction false} UndefinedMembers(ts: seq<Token>, vars: map<string, string>, n: string)
    ensures n in Undefined(ts, vars) <==> n in References(ts) && n !in vars
  {
    if ts != [] {
      UndefinedMembers(ts[1..], vars, n);
    }
  }

  /** Substitution succeeds exactly when every referenced name has a value. */
  lemma SubstSucceedsIff(template: string, vars: map<string, string>)
    ensures Subst(template, vars).Filled? <==> forall n :: n in References(Tokens(template)) ==> n in vars
  {
    hide Undefined, References, Tokens;
    var ts := Tokens(template);
    forall n ensures n in Undefined(ts, vars) <==> n in References(ts) && n !in vars {
      UndefinedMembers(ts, vars, n);
    }
    if Undefined(ts, vars) != [] {
      assert Undefined(ts, vars)[0] in Undefined(ts, vars);
    }
  }

  /** Only the values of referenced names matter. */
  lemma {:induction false} FillDependsOnReferences(ts: seq<Token>, a: map<string, string>, b: map<string, string>)
    requires forall n :: n in References(ts) ==> n in a && n in b && a[n] == b[n]
    ensures Fill(ts, a) == Fill(ts, b)
  {
    if ts != [] {
      forall n | n in References(ts[1..]) ensures n in References(ts) {
      }
      if ts[0].Reference? {
        assert ts[0].name in References(ts);
      }
      FillDependsOnReferences(ts[1..], a, b);
    }
  }

  // ---- What substitution does, character by character ----

  /** A reference to `name`: dollar, brace, a name of word characters, brace. */
  predicate IsReferenceTo(s: string, name: string) {
    name != "" && (forall k :: 0 <= k < |name| ==> IsWord(name[k])) && s == "${" + name + "}"
  }

  /** The first `n + 3` characters are a reference to a name of length `n`. */
  predicate ReferenceOf(s: string, n: nat) {
    0 < n && n + 3 <= |s| && IsReferenceTo(s[..n + 3], s[2..n + 2])
  }

  predicate StartsReference(s: string) {
    exists n :: 0 <= n <= |s| && ReferenceOf(s, n)
  }

  /** The name of the reference that `s` starts with. */
  ghost function StartName(s: string): (name: string)
    requires StartsReference(s)
    ensures |name| + 3 <= |s| && IsReferenceTo(s[..|name| + 3], name)
  {
    var n :| 0 <= n <= |s| && ReferenceOf(s, n);
    s[2..n + 2]
  }

  /**
   From the front of the template on: a reference is replaced by the value of its name, any other character
   stays, and nothing else is written.
   */
  ghost predicate Rewrites(template: string, vars: map<string, string>, text: string)
    decreases |template|
  {
    if template == "" then text == ""
    else if StartsReference(template) then
      var name := StartName(template);
      name in vars && vars[name] <= text && Rewrites(template[|name| + 3..], vars, text[|vars[name]|..])
    else text != "" && text[0] == template[0] && Rewrites(template[1..], vars, text[1..])
  }

  /** The names missing are those of the references without a value, in order, with repetitions. */
  ghost predicate Misses(template: string, vars: map<string, string>, names: seq<string>)
    decreases |template|
  {
    if template == "" then names == []
    else if StartsReference(template) then
      var name := StartName(template);
      if name in vars then Misses(template[|name| + 3..], vars, names)
      else names != [] && names[0] == name && Misses(template[|name| + 3..], vars, names[1..])
    else Misses(template[1..], vars, names)
  }

  lemma WordRun(s: string, n: nat)
    requires n < |s| && (forall k :: 0 <= k < n ==> IsWord(s[k])) && !IsWord(s[n])
    ensures WordLength(s) == n
  {
  }

  /** A token is a reference exactly where one starts, and then the whole of it. */
  lemma TokenMeaning(s: string)
    requires s != ""
    ensures TokenAt(s).Reference? <==> StartsReference(s)
    ensures StartsReference(s) ==>
      TokenAt(s) == Reference(StartName(s)) && TokenLength(s) == |StartName(s)| + 3
    ensures !StartsReference(s) ==> TokenAt(s) == Literal(s[0]) && TokenLength(s) == 1
  {
    hide WordLength;
    if StartsReference(s) {
      var name := StartName(s);
      assert s[..|name| + 3][0] == '$' && s[..|name| + 3][1] == '{';
      assert s[..|name| + 3][|name| + 2] == '}';
      assert s[2..][..|name|] == s[..|name| + 3][2..|name| + 2] == name;
      forall k | 0 <= k < |name| ensures IsWord(s[2..][k]) {
        assert s[2..][k] == name[k];
      }
      WordRun(s[2..], |name|);
      assert s[2..|name| + 2] == name;
    } else {
      NamedStarts(s);
    }
  }

  lemma NamedStarts(s: string)
    ensures ReferenceName(s) > 0 ==> StartsReference(s)
  {
    if ReferenceName(s) > 0 {
      var n := ReferenceName(s);
      ReferenceShape(s);
      assert s[..n + 3] == s[..2] + s[2..n + 2] + s[n + 2..n + 3];
      assert forall k :: 0 <= k < n ==> s[2..n + 2][k] == s[2..][k];
      assert ReferenceOf(s, n);
    }
  }

  lemma {:induction false} FillRewrites(s: string, vars: map<string, string>)
    requires Undefined(Tokens(s), vars) == []
    ensures Rewrites(s, vars, Fill(Tokens(s), vars))
    decreases |s|
  {
    hide TokenAt, TokenLength, StartsReference, StartName;
    if s != "" {
      var rest := s[TokenLength(s)..];
      TokenMeaning(s);
      assert Tokens(s)[1..] == Tokens(rest);
      FillRewrites(rest, vars);
      var one := FillOne(TokenAt(s), vars);
      assert (one + Fill(Tokens(rest), vars))[|one|..] == Fill(Tokens(rest), vars);
    }
  }

  lemma {:induction false} UndefinedMisses(s: string, vars: map<string, string>)
    ensures Misses(s, vars, Undefined(Tokens(s), vars))
    decreases |s|
  {
    hide TokenAt, TokenLength, StartsReference, StartName;
    if s != "" {
      var rest := s[TokenLength(s)..];
      TokenMeaning(s);
      assert Tokens(s)[1..] == Tokens(rest);
      UndefinedMisses(rest, vars);
      var one := UndefinedOne(TokenAt(s), vars);
      assert (one + Undefined(Tokens(rest), vars))[|one|..] == Undefined(Tokens(rest), vars);
    }
  }

  /** Substitution rewrites the template with the values of its references, or lists the ones that have none. */
  lemma SubstMeaning(template: string, vars: map<string, string>)
    ensures var r := Subst(template, vars);
      && (r.Filled? ==> Rewrites(template, vars, r.text))
      && (r.Missing? ==> r.names != [])
      && Misses(template, vars, if r.Missing? then r.names else [])
  {
    hide Tokens, Undefined, Fill, Rewrites, Misses;
    UndefinedMisses(template, vars);
    if Subst(template, vars).Filled? {
      FillRewrites(template, vars);
    }
  }
}
