/**
 JSON Pointer (RFC 6901) as the citation checks evaluate it: a pointer is split
 at `/`, each token is unescaped by two replacement passes, and the tokens are
 followed from the record's fields down.
 */
module JsonPointer {
  import opened Wrappers

  /** A number is its spelling in canonical text, which tells 1 from 1.0. */
  datatype Json =
    | Null | Bool(b: bool) | Number(text: string) | Text(s: string)
    | Array(items: seq<Json>) | Object(fields: map<string, Json>)

  datatype PointerError = NotAPointer | Missing | ThroughScalar

  // ---------------------------------------------------------------------------
  // Tokens
  // ---------------------------------------------------------------------------

  /** Splitting at every `/`; the empty string is one empty token. */
  function Split(s: string): (tokens: seq<string>)
    ensures tokens != []
  {
    if s == "" then [""]
    else
      var rest := Split(s[1..]);
      if s[0] == '/' then [""] + rest else [[s[0]] + rest[0]] + rest[1..]
  }

  function Join(tokens: seq<string>): string
    requires tokens != []
  {
    if |tokens| == 1 then tokens[0] else tokens[0] + "/" + Join(tokens[1..])
  }

  /** One pass of replacing `~` followed by `digit`. */
  function Replace(s: string, digit: char, to: char): string
  {
    if |s| >= 2 && s[0] == '~' && s[1] == digit then [to] + Replace(s[2..], digit, to)
    else if s == "" then ""
    else [s[0]] + Replace(s[1..], digit, to)
  }

  function Unescape(token: string): string
  {
    Replace(Replace(token, '1', '/'), '0', '~')
  }

  /** The reference decoding: one pass from left to right. */
  function DecodeOnce(token: string): string
  {
    if token == "" then ""
    else if |token| >= 2 && token[0] == '~' && token[1] == '0' then "~" + DecodeOnce(token[2..])
    else if |token| >= 2 && token[0] == '~' && token[1] == '1' then "/" + DecodeOnce(token[2..])
    else [token[0]] + DecodeOnce(token[1..])
  }

  function Escape(name: string): string
  {
    if name == "" then ""
    else (if name[0] == '~' then "~0" else if name[0] == '/' then "~1" else [name[0]]) + Escape(name[1..])
  }

  lemma ReplaceSkips(c: char, rest: string, digit: char, to: char)
    requires c != '~' || rest == "" || rest[0] != digit
    ensures Replace([c] + rest, digit, to) == [c] + Replace(rest, digit, to)
  {}

  lemma ReplaceTakes(rest: string, digit: char, to: char)
    ensures Replace(['~', digit] + rest, digit, to) == [to] + Replace(rest, digit, to)
  {}

  // What the first pass leaves in front: the same character, or a `/` for an escape.
  lemma FirstPassHead(s: string)
    requires s != ""
    ensures Replace(s, '1', '/') != ""
    ensures Replace(s, '1', '/')[0] == '0' <==> s[0] == '0'
  {}

  /** Replacing `~1` and then `~0` decodes every token as one left-to-right pass does. */
  lemma {:induction false} TwoPassesAreOne(token: string)
    ensures Unescape(token) == DecodeOnce(token)
    decreases |token|
  {
    if |token| >= 2 && token[0] == '~' && token[1] == '1' {
      TwoPassesAreOne(token[2..]);
      assert token == ['~', '1'] + token[2..];
      ReplaceTakes(token[2..], '1', '/');
      ReplaceSkips('/', Replace(token[2..], '1', '/'), '0', '~');
    } else if |token| >= 2 && token[0] == '~' && token[1] == '0' {
      TwoPassesAreOne(token[2..]);
      assert token == ['~'] + (['0'] + token[2..]);
      ReplaceSkips('0', token[2..], '1', '/');
      ReplaceSkips('~', ['0'] + token[2..], '1', '/');
      var first := Replace(token[2..], '1', '/');
      assert ['~'] + (['0'] + first) == ['~', '0'] + first;
      ReplaceTakes(first, '0', '~');
    } else if token != "" {
      TwoPassesAreOne(token[1..]);
      assert token == [token[0]] + token[1..];
      ReplaceSkips(token[0], token[1..], '1', '/');
      if token[1..] != "" { FirstPassHead(token[1..]); }
      ReplaceSkips(token[0], Replace(token[1..], '1', '/'), '0', '~');
    }
  }

  lemma {:induction false} DecodeEscape(name: string)
    ensures DecodeOnce(Escape(name)) == name
    ensures '/' !in Escape(name)
  {
    if name != "" {
      DecodeEscape(name[1..]);
      var rest := Escape(name[1..]);
      if name[0] == '~' {
        assert ("~0" + rest)[2..] == rest;
      } else if name[0] == '/' {
        assert ("~1" + rest)[2..] == rest;
      } else {
        assert ([name[0]] + rest)[1..] == rest;
      }
    }
  }

  lemma {:induction false} SplitToken(token: string, rest: string)
    requires '/' !in token
    ensures Split(token + "/" + rest) == [token] + Split(rest)
  {
    if token == "" {
      assert (token + "/" + rest)[1..] == rest;
    } else {
      SplitToken(token[1..], rest);
      assert (token + "/" + rest)[1..] == token[1..] + "/" + rest;
      assert [token[0]] + token[1..] == token;
    }
  }

  lemma {:induction false} SplitOnly(token: string)
    requires '/' !in token
    ensures Split(token) == [token]
  {
    if token != "" {
      SplitOnly(token[1..]);
      assert [token[0]] + token[1..] == token;
    }
  }

  lemma {:induction false} SplitJoin(tokens: seq<string>)
    requires tokens != [] && forall t :: t in tokens ==> '/' !in t
    ensures Split(Join(tokens)) == tokens
  {
    if |tokens| == 1 {
      SplitOnly(tokens[0]);
    } else {
      SplitJoin(tokens[1..]);
      SplitToken(tokens[0], Join(tokens[1..]));
    }
  }

  // ---------------------------------------------------------------------------
  // Array indices
  // ---------------------------------------------------------------------------

  predicate IsDigit(c: char) { '0' <= c <= '9' }

  function DigitValue(c: char): nat
    requires IsDigit(c)
  {
    c as int - '0' as int
  }

  function DigitChar(d: nat): (c: char)
    requires d < 10
    ensures IsDigit(c) && DigitValue(c) == d
  {
    ('0' as int + d) as char
  }

  predicate AllDigits(s: string)
  {
    s != "" && forall i :: 0 <= i < |s| ==> IsDigit(s[i])
  }

  function Digits(n: nat): (s: string)
    ensures AllDigits(s)
  {
    if n < 10 then [DigitChar(n)] else Digits(n / 10) + [DigitChar(n % 10)]
  }

  function ParseNat(s: string): nat
    requires forall i :: 0 <= i < |s| ==> IsDigit(s[i])
  {
    if s == "" then 0 else 10 * ParseNat(s[..|s| - 1]) + DigitValue(s[|s| - 1])
  }

  lemma {:induction false} ParseDigits(n: nat)
    ensures ParseNat(Digits(n)) == n
    ensures n > 0 ==> Digits(n)[0] != '0'
  {
    if n >= 10 {
      ParseDigits(n / 10);
      assert Digits(n)[..|Digits(n)| - 1] == Digits(n / 10);
    }
  }

  lemma {:induction false} NonZeroHead(t: string)
    requires AllDigits(t) && t[0] != '0'
    ensures ParseNat(t) > 0
  {
    if |t| > 1 {
      assert t[..|t| - 1][0] == t[0];
      NonZeroHead(t[..|t| - 1]);
    }
  }

  /**
   An accepted index token is the one that section 4 of RFC 6901 gives to that
   index exactly when it has no leading zero; the others are accepted as well.
   */
  lemma {:induction false} IndexTokenIsCanonical(t: string)
    requires AllDigits(t)
    ensures Digits(ParseNat(t)) == t <==> |t| == 1 || t[0] != '0'
  {
    if |t| > 1 {
      var front := t[..|t| - 1];
      IndexTokenIsCanonical(front);
      if t[0] != '0' {
        NonZeroHead(front);
        assert front + [t[|t| - 1]] == t;
      } else {
        ParseDigits(ParseNat(t));
      }
    }
  }

  // ---------------------------------------------------------------------------
  // Evaluation
  // ---------------------------------------------------------------------------

  function Follow(v: Json, key: string): Result<Json, PointerError>
  {
    match v
    case Object(fields) => if key in fields then Ok(fields[key]) else Err(Missing)
    case Array(items) =>
      if !AllDigits(key) || ParseNat(key) >= |items| then Err(Missing) else Ok(items[ParseNat(key)])
    case _ => Err(ThroughScalar)
  }

  function Walk(v: Json, tokens: seq<string>): Result<Json, PointerError>
  {
    if tokens == [] then Ok(v)
    else
      match Follow(v, Unescape(tokens[0]))
      case Err(e) => Err(e)
      case Ok(next) => Walk(next, tokens[1..])
  }

  function Resolve(v: Json, pointer: string): Result<Json, PointerError>
  {
    if pointer == "" || pointer[0] != '/' then Err(NotAPointer) else Walk(v, Split(pointer[1..]))
  }

  /** The loop that follows one component at a time. */
  method ResolveJsonPointer(v: Json, pointer: string) returns (r: Result<Json, PointerError>)
    ensures r == Resolve(v, pointer)
  {
    if pointer == "" || pointer[0] != '/' { return Err(NotAPointer); }
    var components := Split(pointer[1..]);
    var current := v;
    for i := 0 to |components|
      invariant Walk(current, components[i..]) == Walk(v, components)
    {
      var key := Unescape(components[i]);
      match current {
        case Object(fields) =>
          if key !in fields { return Err(Missing); }
          current := fields[key];
        case Array(items) =>
          if !AllDigits(key) || ParseNat(key) >= |items| { return Err(Missing); }
          current := items[ParseNat(key)];
        case _ => return Err(ThroughScalar);
      }
    }
    r := Ok(current);
  }

  /** A witness: the token "00" is accepted for the first element. */
  lemma LeadingZeroIsAccepted(items: seq<Json>)
    requires items != []
    ensures Resolve(Array(items), "/00") == Ok(items[0])
  {
    var token := "00";
    assert "/00"[1..] == token;
    DigitsNeedNoDecoding(token);
    SplitOnly(token);
    TwoPassesAreOne(token);
    assert token[..1] == "0" && ParseNat("0") == 0 && ParseNat(token) == 0;
    assert Follow(Array(items), Unescape(token)) == Ok(items[0]);
    assert Split(token)[1..] == [] && Walk(items[0], Split(token)[1..]) == Ok(items[0]);
  }

  // ---------------------------------------------------------------------------
  // Pointers and paths
  // ---------------------------------------------------------------------------

  /** One step of a path: the name of a member or the index of an element. */
  datatype Key = Member(name: string) | Element(index: nat)

  /** The sub-value at a path, defined on values alone. */
  function SubValue(v: Json, path: seq<Key>): Option<Json>
  {
    if path == [] then Some(v)
    else if path[0].Member? && v.Object? && path[0].name in v.fields then SubValue(v.fields[path[0].name], path[1..])
    else if path[0].Element? && v.Array? && path[0].index < |v.items| then SubValue(v.items[path[0].index], path[1..])
    else None
  }

  function TokenOf(k: Key): string
  {
    match k
    case Member(name) => Escape(name)
    case Element(i) => Digits(i)
  }

  function TokensOf(path: seq<Key>): seq<string>
  {
    if path == [] then [] else [TokenOf(path[0])] + TokensOf(path[1..])
  }

  function PointerOf(path: seq<Key>): string
    requires path != []
  {
    "/" + Join(TokensOf(path))
  }

  lemma {:induction false} DigitsNeedNoDecoding(s: string)
    requires forall i :: 0 <= i < |s| ==> IsDigit(s[i])
    ensures DecodeOnce(s) == s && '/' !in s
  {
    if s != "" {
      DigitsNeedNoDecoding(s[1..]);
      assert s == [s[0]] + s[1..];
    }
  }

  lemma TokenDecodes(k: Key)
    ensures Unescape(TokenOf(k)) == (if k.Member? then k.name else Digits(k.index))
    ensures '/' !in TokenOf(k)
  {
    TwoPassesAreOne(TokenOf(k));
    match k
    case Member(name) => DecodeEscape(name);
    case Element(i) => DigitsNeedNoDecoding(Digits(i));
  }

  lemma {:induction false} WalkFollowsPath(v: Json, path: seq<Key>)
    requires SubValue(v, path).Some?
    ensures Walk(v, TokensOf(path)) == Ok(SubValue(v, path).value)
    ensures forall t :: t in TokensOf(path) ==> '/' !in t
    decreases |path|
  {
    if path != [] {
      var k := path[0];
      TokenDecodes(k);
      if k.Element? { ParseDigits(k.index); }
      var next := if k.Member? then v.fields[k.name] else v.items[k.index];
      WalkFollowsPath(next, path[1..]);
    }
  }

  /** The escaped pointer of any non-empty path to a sub-value resolves to that sub-value. */
  lemma PointerResolvesToSubValue(v: Json, path: seq<Key>)
    requires path != [] && SubValue(v, path).Some?
    ensures Resolve(v, PointerOf(path)) == Ok(SubValue(v, path).value)
  {
    WalkFollowsPath(v, path);
    SplitJoin(TokensOf(path));
    assert PointerOf(path)[1..] == Join(TokensOf(path));
  }

  lemma {:induction false} WalkStaysInside(v: Json, tokens: seq<string>) returns (path: seq<Key>)
    requires Walk(v, tokens).Ok?
    ensures |path| == |tokens| && SubValue(v, path) == Some(Walk(v, tokens).value)
    decreases |tokens|
  {
    if tokens == [] {
      path := [];
    } else {
      var key := Unescape(tokens[0]);
      var rest := WalkStaysInside(Follow(v, key).value, tokens[1..]);
      path := [if v.Object? then Member(key) else Element(ParseNat(key))] + rest;
      assert path[1..] == rest;
    }
  }

  /** Whatever a pointer resolves to is the sub-value at some non-empty path: nothing else can be cited. */
  lemma ResolvedValueIsSubValue(v: Json, pointer: string) returns (path: seq<Key>)
    requires Resolve(v, pointer).Ok?
    ensures path != [] && SubValue(v, path) == Some(Resolve(v, pointer).value)
  {
    path := WalkStaysInside(v, Split(pointer[1..]));
  }
}
