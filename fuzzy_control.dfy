/**
  The text and record handling around a fuzzy controller: rule and test
  strings such as `"angle:rb & p:vl => w:hr"` become dicts and the rule
  expressions that name the adjectives of the fuzzy variables; inputs are
  clipped into the variables' universes; adjectives can be laid out as
  evenly spaced triangles. Fuzzy inference itself is not modelled.
*/
module FuzzyControl {
  import opened Wrappers
  import opened Reals
  import opened Dicts

  // ---------------------------------------------------------------------------
  // Splitting and joining

  /** `s.split(sep)`: the pieces between non-overlapping occurrences of `sep`, scanned from the left. */
  function Split(s: string, sep: string): (pieces: seq<string>)
    requires sep != []
    ensures pieces != []
    decreases |s|
  {
    if s == [] then [[]]
    else if |sep| <= |s| && s[..|sep|] == sep then [[]] + Split(s[|sep|..], sep)
    else
      var rest := Split(s[1..], sep);
      [[s[0]] + rest[0]] + rest[1..]
  }

  /** `sep.join(pieces)`. */
  function Join(pieces: seq<string>, sep: string): string
    requires pieces != []
  {
    if |pieces| == 1 then pieces[0] else pieces[0] + sep + Join(pieces[1..], sep)
  }

  /** A piece starting with `c` joins as `c` followed by the join with that piece shortened. */
  lemma JoinCons(c: char, pieces: seq<string>, sep: string)
    requires pieces != []
    ensures Join([[c] + pieces[0]] + pieces[1..], sep) == [c] + Join(pieces, sep)
  {
    if |pieces| > 1 {
      var joined := [[c] + pieces[0]] + pieces[1..];
      assert joined[1..] == pieces[1..];
    }
  }

  /** An empty first piece joins as the separator followed by the join of the rest. */
  lemma JoinEmptyHead(pieces: seq<string>, sep: string)
    requires pieces != []
    ensures Join([[]] + pieces, sep) == sep + Join(pieces, sep)
  {
    assert ([[]] + pieces)[1..] == pieces;
  }

  /** Joining the pieces of a split with the same separator gives back the string. */
  lemma {:induction false} SplitJoin(s: string, sep: string)
    requires sep != []
    ensures Join(Split(s, sep), sep) == s
    decreases |s|
  {
    if s == [] {
    } else if |sep| <= |s| && s[..|sep|] == sep {
      var rest := Split(s[|sep|..], sep);
      SplitJoin(s[|sep|..], sep);
      JoinEmptyHead(rest, sep);
      assert s == sep + s[|sep|..];
    } else {
      var rest := Split(s[1..], sep);
      SplitJoin(s[1..], sep);
      JoinCons(s[0], rest, sep);
      assert s == [s[0]] + s[1..];
    }
  }

  /** Appending a piece appends the separator and the piece. */
  lemma {:induction false} JoinAppend(pieces: seq<string>, p: string, sep: string)
    requires pieces != []
    ensures Join(pieces + [p], sep) == Join(pieces, sep) + sep + p
  {
    if |pieces| > 1 {
      JoinAppend(pieces[1..], p, sep);
      assert (pieces + [p])[1..] == pieces[1..] + [p];
    }
  }

  /** `sep in s`. */
  predicate Contains(s: string, sep: string)
    requires sep != []
    decreases |s|
  {
    |sep| <= |s| && (s[..|sep|] == sep || Contains(s[1..], sep))
  }

  /** A string in which `sep` does not occur splits into itself alone. */
  lemma {:induction false} SplitAbsent(s: string, sep: string)
    requires sep != [] && !Contains(s, sep)
    ensures Split(s, sep) == [s]
    decreases |s|
  {
    if s != [] {
      SplitAbsent(s[1..], sep);
      assert s == [s[0]] + s[1..];
    }
  }

  /** A string that lacks the separator's first character does not contain it. */
  lemma {:induction false} MissingFirstChar(s: string, sep: string)
    requires sep != [] && forall i :: 0 <= i < |s| ==> s[i] != sep[0]
    ensures !Contains(s, sep)
    decreases |s|
  {
    if |sep| <= |s| {
      assert s[..|sep|][0] == s[0];
      MissingFirstChar(s[1..], sep);
    }
  }

  /** A leading piece with none of the separator's characters comes out first. */
  lemma {:induction false} SplitPrefix(k: string, sep: string, x: string)
    requires sep != [] && forall i :: 0 <= i < |k| ==> k[i] !in sep
    ensures Split(k + sep + x, sep) == [k] + Split(x, sep)
  {
    var s := k + sep + x;
    if k == [] {
      assert s[..|sep|] == sep && s[|sep|..] == x;
    } else {
      assert s[..|sep|][0] == k[0] != sep[0];
      assert s[1..] == k[1..] + sep + x;
      SplitPrefix(k[1..], sep, x);
      assert k == [k[0]] + k[1..];
    }
  }

  /** The tokens delimiters of `string_to_dict`: comma, ampersand and space. */
  const Delimiters: set<char> := {',', '&', ' '}

  /** `re.split` on any character of `seps`: the pieces between delimiters, empty ones included. */
  function SplitAny(s: string, seps: set<char>): (pieces: seq<string>)
    ensures pieces != []
  {
    if s == [] then [[]]
    else
      var rest := SplitAny(s[1..], seps);
      if s[0] in seps then [[]] + rest else [[s[0]] + rest[0]] + rest[1..]
  }

  function Concat(pieces: seq<string>): string
  {
    if pieces == [] then [] else pieces[0] + Concat(pieces[1..])
  }

  /** The characters of `s` that are not in `seps`, in order. */
  function Remove(s: string, seps: set<char>): string
  {
    if s == [] then [] else (if s[0] in seps then [] else [s[0]]) + Remove(s[1..], seps)
  }

  /** No piece holds a delimiter, and together the pieces hold every other character in order. */
  lemma {:induction false} SplitAnyPieces(s: string, seps: set<char>)
    ensures forall i, j :: 0 <= i < |SplitAny(s, seps)| && 0 <= j < |SplitAny(s, seps)[i]| ==> SplitAny(s, seps)[i][j] !in seps
    ensures Concat(SplitAny(s, seps)) == Remove(s, seps)
  {
    if s != [] {
      var rest := SplitAny(s[1..], seps);
      SplitAnyPieces(s[1..], seps);
      if s[0] in seps {
        assert ([[]] + rest)[1..] == rest;
      } else {
        var pieces := [[s[0]] + rest[0]] + rest[1..];
        assert pieces[1..] == rest[1..];
        assert Concat(rest) == rest[0] + Concat(rest[1..]);
        forall i, j | 0 <= i < |pieces| && 0 <= j < |pieces[i]|
          ensures pieces[i][j] !in seps
        {
          if i > 0 {
            assert pieces[i] == rest[i];
          } else if j > 0 {
            assert pieces[0][j] == rest[0][j - 1];
          }
        }
      }
    }
  }

  /** The non-empty pieces, in order. */
  function NonEmpty(pieces: seq<string>): (r: seq<string>)
    ensures forall i :: 0 <= i < |r| ==> r[i] != [] && r[i] in pieces
  {
    if pieces == [] then []
    else if pieces[0] == [] then NonEmpty(pieces[1..])
    else [pieces[0]] + NonEmpty(pieces[1..])
  }

  lemma {:induction false} NonEmptyConcat(pieces: seq<string>)
    ensures Concat(NonEmpty(pieces)) == Concat(pieces)
  {
    if pieces != [] {
      var rest := NonEmpty(pieces[1..]);
      NonEmptyConcat(pieces[1..]);
      assert Concat(pieces) == pieces[0] + Concat(pieces[1..]);
      if pieces[0] == [] {
        assert NonEmpty(pieces) == rest;
      } else {
        assert NonEmpty(pieces) == [pieces[0]] + rest;
        assert ([pieces[0]] + rest)[1..] == rest;
      }
    }
  }

  /** `[item for item in re.split(',|&| ', s) if item]`. */
  function Tokens(s: string): seq<string>
  {
    NonEmpty(SplitAny(s, Delimiters))
  }

  /** Every token is non-empty and free of delimiters, and the tokens hold every other character of `s` in order. */
  lemma TokensSpec(s: string)
    ensures forall i :: 0 <= i < |Tokens(s)| ==> Tokens(s)[i] != []
    ensures forall i, j :: 0 <= i < |Tokens(s)| && 0 <= j < |Tokens(s)[i]| ==> Tokens(s)[i][j] !in Delimiters
    ensures Concat(Tokens(s)) == Remove(s, Delimiters)
  {
    var pieces := SplitAny(s, Delimiters);
    SplitAnyPieces(s, Delimiters);
    NonEmptyConcat(pieces);
    forall i, j | 0 <= i < |Tokens(s)| && 0 <= j < |Tokens(s)[i]|
      ensures Tokens(s)[i][j] !in Delimiters
    {
      var t := Tokens(s)[i];
      assert t in pieces;
      var k :| 0 <= k < |pieces| && pieces[k] == t;
    }
  }

  // ---------------------------------------------------------------------------
  // Values

  /** What `string_to_value` returns: a number when the text parses as one, the text otherwise. */
  datatype Value = Num(number: real) | Text(text: string)

  predicate IsDigit(c: char)
  {
    '0' <= c <= '9'
  }

  predicate AllDigits(s: string)
  {
    forall i :: 0 <= i < |s| ==> IsDigit(s[i])
  }

  /** The natural number a string of decimal digits denotes. */
  function DigitsValue(s: string): nat
    requires AllDigits(s)
  {
    if s == [] then 0 else DigitsValue(s[..|s| - 1]) * 10 + ((s[|s| - 1] as int) - ('0' as int))
  }

  function Pow10(n: nat): (r: nat)
    ensures r >= 1
  {
    if n == 0 then 1 else 10 * Pow10(n - 1)
  }

  /** Digits with at most one point, at least one digit: `12`, `12.5`, `12.`, `.5`. */
  function ParseUnsigned(s: string): Option<real>
  {
    var parts := Split(s, ".");
    if |parts| == 1 && parts[0] != [] && AllDigits(parts[0]) then Some(DigitsValue(parts[0]) as real)
    else if |parts| == 2 && AllDigits(parts[0]) && AllDigits(parts[1]) && parts[0] + parts[1] != [] then
      Some(DigitsValue(parts[0]) as real + DigitsValue(parts[1]) as real / Pow10(|parts[1]|) as real)
    else None
  }

  /** A decimal number with an optional sign. */
  function ParseDecimal(s: string): Option<real>
  {
    if s != [] && (s[0] == '-' || s[0] == '+') then
      match ParseUnsigned(s[1..])
      case None => None
      case Some(x) => Some(if s[0] == '-' then -x else x)
    else ParseUnsigned(s)
  }

  /** `string_to_value`. */
  function StringToValue(s: string): (v: Value)
    ensures v.Num? <==> ParseDecimal(s).Some?
    ensures v.Text? ==> v.text == s
  {
    match ParseDecimal(s)
    case Some(x) => Num(x)
    case None => Text(s)
  }

  function DigitChar(d: nat): (c: char)
    requires d < 10
    ensures IsDigit(c) && (c as int) - ('0' as int) == d
  {
    (('0' as int) + d) as char
  }

  /** The decimal digits of `n`. */
  function NatString(n: nat): string
    decreases n
  {
    if n < 10 then [DigitChar(n)] else NatString(n / 10) + [DigitChar(n % 10)]
  }

  /** The usual decimal notation of an integer. */
  function IntString(i: int): string
  {
    if i < 0 then "-" + NatString(-i) else NatString(i)
  }

  lemma {:induction false} NatStringDigits(n: nat)
    ensures NatString(n) != [] && AllDigits(NatString(n)) && DigitsValue(NatString(n)) == n
    decreases n
  {
    if n >= 10 {
      NatStringDigits(n / 10);
      var s := NatString(n);
      assert s[..|s| - 1] == NatString(n / 10);
    }
  }

  /** The notation of an integer reads back as that integer. */
  lemma StringToValueInt(i: int)
    ensures StringToValue(IntString(i)) == Num(i as real)
  {
    var n: nat := if i < 0 then -i else i;
    var digits := NatString(n);
    NatStringDigits(n);
    MissingFirstChar(digits, ".");
    SplitAbsent(digits, ".");
    assert ParseUnsigned(digits) == Some(n as real);
    if i < 0 {
      assert IntString(i)[1..] == digits;
    }
  }

  // ---------------------------------------------------------------------------
  // string_to_dict

  /** One `key:value` token: the text before the first colon and the value of the text up to the next one; no colon, no pair. */
  function KeyValue(token: string): Option<(string, Value)>
  {
    var kv := Split(token, ":");
    if |kv| < 2 then None else Some((kv[0], StringToValue(kv[1])))
  }

  /** Reading a pair written as `key:value` gives back the key and the value. */
  lemma KeyValueRoundTrip(k: string, v: string)
    requires forall i :: 0 <= i < |k| ==> k[i] != ':'
    requires forall i :: 0 <= i < |v| ==> v[i] != ':'
    ensures KeyValue(k + ":" + v) == Some((k, StringToValue(v)))
  {
    SplitPrefix(k, ":", v);
    MissingFirstChar(v, ":");
    SplitAbsent(v, ":");
  }

  /** With more colons after the value, the text after the second colon is ignored. */
  lemma KeyValueExtraColons(k: string, v: string, rest: string)
    requires forall i :: 0 <= i < |k| ==> k[i] != ':'
    requires forall i :: 0 <= i < |v| ==> v[i] != ':'
    ensures KeyValue(k + ":" + v + ":" + rest) == Some((k, StringToValue(v)))
  {
    var tail := v + ":" + rest;
    SplitPrefix(v, ":", rest);
    SplitPrefix(k, ":", tail);
    assert k + ":" + v + ":" + rest == k + ":" + tail;
    assert Split(k + ":" + tail, ":")[1] == v;
  }

  /** The dict the tokens build, or the first token without a colon. */
  function DictOf(tokens: seq<string>): Result<Dict<Value>, string>
  {
    if tokens == [] then Success([])
    else
      var d :- DictOf(tokens[..|tokens| - 1]);
      var t := tokens[|tokens| - 1];
      match KeyValue(t)
      case None => Failure(t)
      case Some(kv) => Success(Put(d, kv.0, kv.1))
  }

  /** The value of the last token whose key is `k`. */
  function LastValue(tokens: seq<string>, k: string): Option<Value>
  {
    if tokens == [] then None
    else
      var kv := KeyValue(tokens[|tokens| - 1]);
      if kv.Some? && kv.value.0 == k then Some(kv.value.1) else LastValue(tokens[..|tokens| - 1], k)
  }

  /** Later tokens overwrite earlier ones: each key reads the value of its last token. */
  lemma {:induction false} DictOfLookup(tokens: seq<string>, k: string)
    requires DictOf(tokens).Success?
    ensures Lookup(DictOf(tokens).value, k) == LastValue(tokens, k)
  {
    if tokens != [] {
      var n := |tokens| - 1;
      DictOfLookup(tokens[..n], k);
      var kv := KeyValue(tokens[n]).value;
      PutLookup(DictOf(tokens[..n]).value, kv.0, kv.1, k);
    }
  }

  /** A failure in a prefix is the failure of the whole. */
  lemma {:induction false} DictOfPrefixFailure(tokens: seq<string>, j: nat)
    requires j <= |tokens| && DictOf(tokens[..j]).Failure?
    ensures DictOf(tokens) == DictOf(tokens[..j])
  {
    if j < |tokens| {
      var n := |tokens| - 1;
      assert tokens[..n][..j] == tokens[..j];
      DictOfPrefixFailure(tokens[..n], j);
      assert tokens[..n] == tokens[..|tokens| - 1];
    } else {
      assert tokens[..j] == tokens;
    }
  }

  /** The dict is built exactly when every token has a colon; a failure names a token of the input that has none. */
  lemma {:induction false} DictOfFailure(tokens: seq<string>)
    ensures DictOf(tokens).Success? <==> forall i :: 0 <= i < |tokens| ==> KeyValue(tokens[i]).Some?
    ensures DictOf(tokens).Failure? ==> DictOf(tokens).error in tokens && KeyValue(DictOf(tokens).error).None?
  {
    if tokens != [] {
      var n := |tokens| - 1;
      DictOfFailure(tokens[..n]);
      assert forall i :: 0 <= i < n ==> tokens[..n][i] == tokens[i];
      assert tokens == tokens[..n] + [tokens[n]];
    }
  }

  /** `string_to_dict`: the dict of the tokens, or the first token without a colon (where Python's `kv[1]` fails). */
  method StringToDict(inputString: string) returns (r: Result<Dict<Value>, string>)
    ensures r == DictOf(Tokens(inputString))
  {
    var varDict: Dict<Value> := [];
    var tokens := Tokens(inputString);
    var i := 0;
    while i < |tokens|
      invariant 0 <= i <= |tokens|
      invariant DictOf(tokens[..i]) == Success(varDict)
    {
      var token := tokens[i];
      var kv := Split(token, ":");
      assert tokens[..i + 1][..i] == tokens[..i];
      if |kv| < 2 {
        DictOfPrefixFailure(tokens, i + 1);
        return Failure(token);
      }
      varDict := Put(varDict, kv[0], StringToValue(kv[1]));
      i := i + 1;
    }
    assert tokens[..i] == tokens;
    r := Success(varDict);
  }

  // ---------------------------------------------------------------------------
  // rule_code, define_rules, define_tests

  function DictName(isAntecedent: bool): string
  {
    if isAntecedent then "antecedents" else "consequents"
  }

  /** How a value is printed by `%s`; Python's float printing is a parameter `show`. */
  function ValueText(v: Value, show: real -> string): string
  {
    match v
    case Num(x) => show(x)
    case Text(t) => t
  }

  /** ` dict['variable']['adjective']`: the reference to one adjective of one variable. */
  function Term(dictName: string, k: string, v: Value, show: real -> string): string
  {
    " " + dictName + "['" + k + "']['" + ValueText(v, show) + "']"
  }

  /** The code the loop of `rule_code` accumulates over the pairs of `d`. */
  function CodeOf(dictName: string, d: Dict<Value>, show: real -> string): string
  {
    if d == [] then ""
    else
      var n := |d| - 1;
      CodeOf(dictName, d[..n], show) + (if n == 0 then "" else " &") + Term(dictName, d[n].0, d[n].1, show)
  }

  /** One term per pair of `d`, in order. */
  function Terms(dictName: string, d: Dict<Value>, show: real -> string): (r: seq<string>)
    ensures |r| == |d|
  {
    if d == [] then [] else Terms(dictName, d[..|d| - 1], show) + [Term(dictName, d[|d| - 1].0, d[|d| - 1].1, show)]
  }

  /** The rule code is the terms joined by ` &`. */
  lemma {:induction false} CodeIsJoin(dictName: string, d: Dict<Value>, show: real -> string)
    requires d != []
    ensures CodeOf(dictName, d, show) == Join(Terms(dictName, d, show), " &")
  {
    var n := |d| - 1;
    if n > 0 {
      CodeIsJoin(dictName, d[..n], show);
      JoinAppend(Terms(dictName, d[..n], show), Term(dictName, d[n].0, d[n].1, show), " &");
    }
  }

  /** One more pair appends its term, after ` &` unless it is the first. */
  lemma CodeStep(dictName: string, d: Dict<Value>, show: real -> string, i: nat)
    requires i < |d|
    ensures CodeOf(dictName, d[..i + 1], show) ==
            CodeOf(dictName, d[..i], show) + (if i == 0 then "" else " &") + Term(dictName, d[i].0, d[i].1, show)
  {
    assert d[..i + 1][..i] == d[..i];
  }

  /** `rule_code` as a value: the code of the dict of the string. */
  function RuleCodeOf(ruleString: string, isAntecedent: bool, show: real -> string): Result<string, string>
  {
    var d :- DictOf(Tokens(ruleString));
    Success(CodeOf(DictName(isAntecedent), d, show))
  }

  /** The code names the `antecedents` or `consequents` adjective of every pair, joined by ` &`, exactly when the string parses. */
  lemma RuleCodeTerms(ruleString: string, isAntecedent: bool, show: real -> string)
    ensures RuleCodeOf(ruleString, isAntecedent, show).Success? <==> DictOf(Tokens(ruleString)).Success?
    ensures RuleCodeOf(ruleString, isAntecedent, show).Success? && DictOf(Tokens(ruleString)).value != [] ==>
              RuleCodeOf(ruleString, isAntecedent, show).value ==
              Join(Terms(DictName(isAntecedent), DictOf(Tokens(ruleString)).value, show), " &")
  {
    if DictOf(Tokens(ruleString)).Success? && DictOf(Tokens(ruleString)).value != [] {
      CodeIsJoin(DictName(isAntecedent), DictOf(Tokens(ruleString)).value, show);
    }
  }

  /** The loop of `rule_code`: one term per pair, separated by ` &`. */
  method Code(dictName: string, ruleDict: Dict<Value>, show: real -> string) returns (code: string)
    ensures code == CodeOf(dictName, ruleDict, show)
  {
    var separator := "";
    code := "";
    var i := 0;
    while i < |ruleDict|
      invariant 0 <= i <= |ruleDict|
      invariant code == CodeOf(dictName, ruleDict[..i], show)
      invariant separator == if i == 0 then "" else " &"
    {
      CodeStep(dictName, ruleDict, show, i);
      code := code + separator + Term(dictName, ruleDict[i].0, ruleDict[i].1, show);
      separator := " &";
      i := i + 1;
    }
    assert ruleDict[..i] == ruleDict;
  }

  method RuleCode(ruleString: string, isAntecedent: bool, show: real -> string) returns (r: Result<string, string>)
    ensures r == RuleCodeOf(ruleString, isAntecedent, show)
  {
    var dictName := DictName(isAntecedent);
    var ruleDict :- StringToDict(ruleString);
    var code := Code(dictName, ruleDict, show);
    r := Success(code);
  }

  /** Each of `xs` mapped by `f`, or the first failure. */
  function MapAll<A, B>(xs: seq<A>, f: A -> Result<B, string>): Result<seq<B>, string>
  {
    if xs == [] then Success([])
    else
      var ys :- MapAll(xs[..|xs| - 1], f);
      var y :- f(xs[|xs| - 1]);
      Success(ys + [y])
  }

  /** The map succeeds exactly when every element does, and then holds their results in order. */
  lemma {:induction false} MapAllSuccess<A, B>(xs: seq<A>, f: A -> Result<B, string>)
    ensures MapAll(xs, f).Success? <==> forall i :: 0 <= i < |xs| ==> f(xs[i]).Success?
    ensures MapAll(xs, f).Success? ==>
              |MapAll(xs, f).value| == |xs| && forall i :: 0 <= i < |xs| ==> f(xs[i]) == Success(MapAll(xs, f).value[i])
  {
    if xs != [] {
      var n := |xs| - 1;
      MapAllSuccess(xs[..n], f);
      assert forall i :: 0 <= i < n ==> xs[..n][i] == xs[i];
    }
  }

  /** When a prefix maps and the next element fails, the map fails with that element's error. */
  lemma {:induction false} MapAllFailsAt<A, B>(xs: seq<A>, f: A -> Result<B, string>, i: nat)
    requires i < |xs| && MapAll(xs[..i], f).Success? && f(xs[i]).Failure?
    ensures MapAll(xs, f) == Failure(f(xs[i]).error)
  {
    var n := |xs| - 1;
    assert xs[..i + 1][..i] == xs[..i];
    if i < n {
      assert xs[..n][..i] == xs[..i];
      assert xs[..n][i] == xs[i];
      MapAllFailsAt(xs[..n], f, i);
    } else {
      assert xs[..n] == xs[..i];
    }
  }

  /** A rule: the antecedent code and the consequent code that `ctrl.Rule` evaluates. */
  datatype Rule = Rule(antecedent: string, consequent: string)

  /** One rule string: the two sides of `=>`; a rule without `=>` fails where Python reads `tokens[1]`. */
  function RuleOf(ruleString: string, show: real -> string): Result<Rule, string>
  {
    var tokens := Split(ruleString, "=>");
    if |tokens| < 2 then Failure(ruleString)
    else
      var ifCode :- RuleCodeOf(tokens[0], true, show);
      var thenCode :- RuleCodeOf(tokens[1], false, show);
      Success(Rule(ifCode, thenCode))
  }

  function RuleWith(show: real -> string): string -> Result<Rule, string>
  {
    (ruleString: string) => RuleOf(ruleString, show)
  }

  /** A rule with no `=>` in it is rejected. */
  lemma RuleWithoutArrowFails(ruleString: string, show: real -> string)
    requires !Contains(ruleString, "=>")
    ensures RuleOf(ruleString, show) == Failure(ruleString)
  {
    SplitAbsent(ruleString, "=>");
  }

  /** A rule written `lhs=>rhs`, with neither `=` nor `>` on the left and no `=>` on the right, has the codes of its two sides. */
  lemma RuleOfSides(lhs: string, rhs: string, show: real -> string)
    requires forall i :: 0 <= i < |lhs| ==> lhs[i] !in "=>"
    requires !Contains(rhs, "=>")
    requires RuleCodeOf(lhs, true, show).Success? && RuleCodeOf(rhs, false, show).Success?
    ensures RuleOf(lhs + "=>" + rhs, show) ==
            Success(Rule(RuleCodeOf(lhs, true, show).value, RuleCodeOf(rhs, false, show).value))
  {
    SplitPrefix(lhs, "=>", rhs);
    SplitAbsent(rhs, "=>");
  }

  /** `define_rules`: the rule of every rule string, or the first failure. */
  method DefineRules(rulesConfig: seq<string>, show: real -> string) returns (r: Result<seq<Rule>, string>)
    ensures r == MapAll(rulesConfig, RuleWith(show))
  {
    var rules: seq<Rule> := [];
    var i := 0;
    while i < |rulesConfig|
      invariant 0 <= i <= |rulesConfig|
      invariant MapAll(rulesConfig[..i], RuleWith(show)) == Success(rules)
    {
      var ruleString := rulesConfig[i];
      var tokens := Split(ruleString, "=>");
      if |tokens| < 2 {
        MapAllFailsAt(rulesConfig, RuleWith(show), i);
        return Failure(ruleString);
      }
      var ifCode := RuleCode(tokens[0], true, show);
      if ifCode.Failure? {
        MapAllFailsAt(rulesConfig, RuleWith(show), i);
        return Failure(ifCode.error);
      }
      var thenCode := RuleCode(tokens[1], false, show);
      if thenCode.Failure? {
        MapAllFailsAt(rulesConfig, RuleWith(show), i);
        return Failure(thenCode.error);
      }
      assert rulesConfig[..i + 1][..i] == rulesConfig[..i];
      rules := rules + [Rule(ifCode.value, thenCode.value)];
      i := i + 1;
    }
    assert rulesConfig[..i] == rulesConfig;
    r := Success(rules);
  }

  /** A test as written: the input string, and the output and comment when present. */
  datatype TestConfig = TestConfig(inputs: string, output: Option<string>, comment: Option<string>)

  /** A test record: the input dict, the expected output (None when absent), the comment ('' when absent). */
  datatype Test = Test(inputs: Dict<Value>, output: Option<string>, comment: string)

  function TestOf(config: TestConfig): Result<Test, string>
  {
    var inputs :- DictOf(Tokens(config.inputs));
    Success(Test(inputs, config.output, match config.comment case Some(c) => c case None => ""))
  }

  /** `define_tests`: the test of every configuration, or the first input string that fails. */
  method DefineTests(testsConfig: seq<TestConfig>) returns (r: Result<seq<Test>, string>)
    ensures r == MapAll(testsConfig, TestOf)
  {
    var tests: seq<Test> := [];
    var i := 0;
    while i < |testsConfig|
      invariant 0 <= i <= |testsConfig|
      invariant MapAll(testsConfig[..i], TestOf) == Success(tests)
    {
      var config := testsConfig[i];
      var inputs := StringToDict(config.inputs);
      if inputs.Failure? {
        MapAllFailsAt(testsConfig, TestOf, i);
        return Failure(inputs.error);
      }
      var comment := match config.comment case Some(c) => c case None => "";
      assert testsConfig[..i + 1][..i] == testsConfig[..i];
      tests := tests + [Test(inputs.value, config.output, comment)];
      i := i + 1;
    }
    assert testsConfig[..i] == testsConfig;
    r := Success(tests);
  }

  // ---------------------------------------------------------------------------
  // Fuzzy variables, clipping and the uniform layout

  /** A membership function: a triangle (feet `a`, `c`, peak `b`) or a trapezoid. */
  datatype Membership = Triangle(a: real, b: real, c: real) | Trapezoid(a: real, b: real, c: real, d: real)

  /** A fuzzy variable: the sampled universe of its values and its adjectives. */
  datatype FuzzyVariable = FuzzyVariable(universe: seq<real>, adjectives: Dict<Membership>)

  /** The two independent checks of `clip_outlier_values` on the original value `v`. */
  function ClipValue(v: real, aMin: real, aMax: real, smallInc: real): real
  {
    var below := if v < aMin then aMin + smallInc else v;
    if v > aMax then aMax - smallInc else below
  }

  /**
    With a margin that fits inside the range, a clipped value lies in the
    range, a value already in range is kept, and clipping twice is clipping once.
  */
  lemma ClipValueSpec(v: real, aMin: real, aMax: real, smallInc: real)
    requires 0.0 <= smallInc && aMin + smallInc <= aMax - smallInc
    ensures aMin <= ClipValue(v, aMin, aMax, smallInc) <= aMax
    ensures aMin <= v <= aMax ==> ClipValue(v, aMin, aMax, smallInc) == v
    ensures v < aMin ==> ClipValue(v, aMin, aMax, smallInc) == aMin + smallInc
    ensures v > aMax ==> ClipValue(v, aMin, aMax, smallInc) == aMax - smallInc
    ensures ClipValue(ClipValue(v, aMin, aMax, smallInc), aMin, aMax, smallInc) == ClipValue(v, aMin, aMax, smallInc)
  {
  }

  class FuzzyControl {
    const name: string
    const description: string
    const antecedents: Dict<FuzzyVariable>
    const consequents: Dict<FuzzyVariable>
    const rules: seq<Rule>
    var tests: seq<Test>

    constructor (name: string, description: string, rules: seq<Rule>, antecedents: Dict<FuzzyVariable>,
                 consequents: Dict<FuzzyVariable>, tests: seq<Test>)
      ensures this.name == name && this.description == description && this.rules == rules
      ensures this.antecedents == antecedents && this.consequents == consequents && this.tests == tests
    {
      this.name := name;
      this.description := description;
      this.rules := rules;
      this.antecedents := antecedents;
      this.consequents := consequents;
      this.tests := tests;
    }

    method AddTest(test: Test)
      modifies this
      ensures tests == old(tests) + [test]
    {
      tests := tests + [test];
    }

    /** Antecedents are searched first, then consequents; an unknown name has no variable. */
    function GetFuzzyVariable(name: string): (r: Option<FuzzyVariable>)
      ensures Lookup(antecedents, name).Some? ==> r == Lookup(antecedents, name)
      ensures Lookup(antecedents, name).None? ==> r == Lookup(consequents, name)
      ensures r.None? <==> Lookup(antecedents, name).None? && Lookup(consequents, name).None?
    {
      if Lookup(antecedents, name).Some? then Lookup(antecedents, name)
      else if Lookup(consequents, name).Some? then Lookup(consequents, name)
      else None
    }

    /** The first and last points of the variable's universe; an unknown name or an empty universe is an error. */
    function GetFuzzyVariableMinMax(key: string): (r: Result<(real, real), string>)
      ensures r.Success? <==> GetFuzzyVariable(key).Some? && GetFuzzyVariable(key).value.universe != []
      ensures r.Success? ==> var u := GetFuzzyVariable(key).value.universe; r.value == (u[0], u[|u| - 1])
    {
      match GetFuzzyVariable(key)
      case None => Failure("Fuzzy variable \"" + key + "\" not known")
      case Some(v) =>
        if v.universe == [] then Failure("empty universe of \"" + key + "\"")
        else Success((v.universe[0], v.universe[|v.universe| - 1]))
    }

    /** The clipped value of one input: only antecedent keys are clipped, into their universe. */
    function ClipEntry(k: string, v: real, smallInc: real): Result<real, string>
    {
      if Lookup(antecedents, k).None? then Success(v)
      else
        var minMax :- GetFuzzyVariableMinMax(k);
        Success(ClipValue(v, minMax.0, minMax.1, smallInc))
    }

    /**
      `clip_outlier_values`: every input of an antecedent is clipped into the
      universe of that variable; other inputs and the keys are untouched.
    */
    method ClipOutlierValues(inputValues: Dict<real>, smallInc: real := 0.001) returns (r: Result<Dict<real>, string>)
      ensures r.Success? <==> forall i :: 0 <= i < |inputValues| ==> ClipEntry(inputValues[i].0, inputValues[i].1, smallInc).Success?
      ensures r.Success? ==> |r.value| == |inputValues|
      ensures r.Success? ==> forall i :: 0 <= i < |inputValues| ==>
                r.value[i].0 == inputValues[i].0 && ClipEntry(inputValues[i].0, inputValues[i].1, smallInc) == Success(r.value[i].1)
    {
      var values := inputValues;
      var i := 0;
      while i < |inputValues|
        invariant 0 <= i <= |inputValues| && |values| == |inputValues|
        invariant forall j :: 0 <= j < i ==> ClipEntry(inputValues[j].0, inputValues[j].1, smallInc).Success?
        invariant forall j :: 0 <= j < i ==>
                    values[j].0 == inputValues[j].0 && ClipEntry(inputValues[j].0, inputValues[j].1, smallInc) == Success(values[j].1)
        invariant forall j :: i <= j < |inputValues| ==> values[j] == inputValues[j]
      {
        var (k, v) := inputValues[i];
        if Lookup(antecedents, k).Some? {
          var minMax := GetFuzzyVariableMinMax(k);
          if minMax.Failure? {
            return Failure(minMax.error);
          }
          var (aMin, aMax) := minMax.value;
          if v < aMin {
            values := values[i := (k, aMin + smallInc)];
          }
          if v > aMax {
            values := values[i := (k, aMax - smallInc)];
          }
        }
        i := i + 1;
      }
      r := Success(values);
    }
  }

  /** The peak of the `i`-th adjective: each one increment past the previous, held at the maximum once it passes it. */
  function Peak(minValue: real, maxValue: real, increment: real, i: nat): real
  {
    if i == 0 then minValue
    else
      var low := Peak(minValue, maxValue, increment, i - 1) + increment;
      if low > maxValue then maxValue else low
  }

  /** The triangle peaking at `low` with its feet one increment away, clamped into [min, max]. */
  function TriangleAt(minValue: real, maxValue: real, increment: real, low: real): Membership
  {
    Triangle(Max(low - increment, minValue), low, Min(low + increment, maxValue))
  }

  /** The adjectives `names` laid out in order, each name assigned its triangle. */
  function LayoutOf(names: seq<string>, minValue: real, maxValue: real, increment: real): Dict<Membership>
  {
    if names == [] then []
    else
      var n := |names| - 1;
      Put(LayoutOf(names[..n], minValue, maxValue, increment), names[n],
          TriangleAt(minValue, maxValue, increment, Peak(minValue, maxValue, increment, n)))
  }

  /** For min <= max and a non-negative increment the peaks are min + i*increment, capped at max. */
  lemma {:induction false} PeakClosedForm(minValue: real, maxValue: real, increment: real, i: nat)
    requires minValue <= maxValue && increment >= 0.0
    ensures Peak(minValue, maxValue, increment, i) == Min(minValue + i as real * increment, maxValue)
  {
    if i > 0 {
      PeakClosedForm(minValue, maxValue, increment, i - 1);
      assert i as real * increment == (i - 1) as real * increment + increment;
    }
  }

  /** Spread over `k` >= 2 adjectives the last peak is exactly the maximum. */
  lemma LastPeakIsMax(minValue: real, maxValue: real, k: nat)
    requires minValue <= maxValue && k >= 2
    ensures Peak(minValue, maxValue, (maxValue - minValue) / (k - 1) as real, k - 1) == maxValue
  {
    var increment := (maxValue - minValue) / (k - 1) as real;
    assert increment >= 0.0;
    PeakClosedForm(minValue, maxValue, increment, k - 1);
    assert (k - 1) as real * increment == maxValue - minValue;
  }

  /** For a peak inside [min, max] and a non-negative increment the triangle is ordered and lies inside [min, max]. */
  lemma TriangleInRange(minValue: real, maxValue: real, increment: real, low: real)
    requires minValue <= low <= maxValue && increment >= 0.0
    ensures var t := TriangleAt(minValue, maxValue, increment, low); minValue <= t.a <= t.b <= t.c <= maxValue
  {
  }

  /** With distinct names, each name reads the triangle of its own position. */
  lemma {:induction false} LayoutLookup(names: seq<string>, minValue: real, maxValue: real, increment: real, i: nat)
    requires i < |names| && forall p, q :: 0 <= p < q < |names| ==> names[p] != names[q]
    ensures Lookup(LayoutOf(names, minValue, maxValue, increment), names[i]) ==
            Some(TriangleAt(minValue, maxValue, increment, Peak(minValue, maxValue, increment, i)))
  {
    var n := |names| - 1;
    PutLookup(LayoutOf(names[..n], minValue, maxValue, increment), names[n],
              TriangleAt(minValue, maxValue, increment, Peak(minValue, maxValue, increment, n)), names[i]);
    if i < n {
      LayoutLookup(names[..n], minValue, maxValue, increment, i);
    }
  }

  /** The next peak is one increment further, held at the maximum. */
  lemma PeakStep(minValue: real, maxValue: real, increment: real, i: nat)
    ensures Peak(minValue, maxValue, increment, i + 1) ==
            var low := Peak(minValue, maxValue, increment, i) + increment; if low > maxValue then maxValue else low
  {
  }

  /** One more adjective: its triangle is put at the peak of its position. */
  lemma LayoutStep(names: seq<string>, minValue: real, maxValue: real, increment: real, i: nat)
    requires i < |names|
    ensures LayoutOf(names[..i + 1], minValue, maxValue, increment) ==
            Put(LayoutOf(names[..i], minValue, maxValue, increment), names[i],
                TriangleAt(minValue, maxValue, increment, Peak(minValue, maxValue, increment, i)))
  {
    assert names[..i + 1][..i] == names[..i];
  }

  /** The triangle's feet are the two clamps of the source. */
  lemma TriangleAtClamps(minValue: real, maxValue: real, increment: real, low: real)
    ensures TriangleAt(minValue, maxValue, increment, low) ==
            Triangle(if low - increment < minValue then minValue else low - increment, low,
                     if low + increment > maxValue then maxValue else low + increment)
  {
  }

  /**
    One pass of the layout loop: the clamped feet around the current peak
    make the triangle of position `i`, and the clamped next low is the next peak.
  */
  lemma LayoutAdvance(names: seq<string>, minValue: real, maxValue: real, increment: real, i: nat,
                      adjectives: Dict<Membership>, low: real, firstValue: real, lastValue: real, next: real)
    requires i < |names|
    requires adjectives == LayoutOf(names[..i], minValue, maxValue, increment)
    requires low == Peak(minValue, maxValue, increment, i)
    requires firstValue == (if low - increment < minValue then minValue else low - increment)
    requires lastValue == (if low + increment > maxValue then maxValue else low + increment)
    requires next == (if low + increment > maxValue then maxValue else low + increment)
    ensures Put(adjectives, names[i], Triangle(firstValue, low, lastValue)) == LayoutOf(names[..i + 1], minValue, maxValue, increment)
    ensures next == Peak(minValue, maxValue, increment, i + 1)
  {
    TriangleAtClamps(minValue, maxValue, increment, low);
    LayoutStep(names, minValue, maxValue, increment, i);
    PeakStep(minValue, maxValue, increment, i);
  }

  /** The loop of the uniform layout: peaks one increment apart, held at the maximum. */
  method Layout(names: seq<string>, minValue: real, maxValue: real, increment: real) returns (adjectives: Dict<Membership>)
    ensures adjectives == LayoutOf(names, minValue, maxValue, increment)
  {
    adjectives := [];
    var low := minValue;
    var i := 0;
    while i < |names|
      invariant 0 <= i <= |names|
      invariant adjectives == LayoutOf(names[..i], minValue, maxValue, increment)
      invariant low == Peak(minValue, maxValue, increment, i)
    {
      var firstValue := low - increment;
      if firstValue < minValue {
        firstValue := minValue;
      }
      var lastValue := low + increment;
      if lastValue > maxValue {
        lastValue := maxValue;
      }
      var next := low + increment;
      if next > maxValue {
        next := maxValue;
      }
      LayoutAdvance(names, minValue, maxValue, increment, i, adjectives, low, firstValue, lastValue, next);
      adjectives := Put(adjectives, names[i], Triangle(firstValue, low, lastValue));
      low := next;
      i := i + 1;
    }
    assert names[..i] == names;
  }

  /**
    The uniform-adjectives branch of `define_fuzzy_variables`: the range is
    cut into |names| - 1 equal increments; a single adjective divides by
    zero, and no adjective gives no triangle.
  */
  method UniformAdjectives(names: seq<string>, minValue: real, maxValue: real) returns (r: Result<Dict<Membership>, string>)
    ensures r.Failure? <==> |names| == 1
    ensures r.Success? ==> r.value == LayoutOf(names, minValue, maxValue, (maxValue - minValue) / (|names| - 1) as real)
  {
    var points := |names| - 1;
    if points == 0 {
      return Failure("float division by zero");
    }
    var amplitude := maxValue - minValue;
    var increment := amplitude / points as real;
    var adjectives := Layout(names, minValue, maxValue, increment);
    r := Success(adjectives);
  }
}
