/**
 The limited JSONPath of HTTP task templates: the expressions that pass validation, and
 what evaluating one means compared with looking up its steps one after the other.
*/
module JsonPath {
  import opened Text
  import opened Wrappers

  datatype Json =
    | JNull
    | JBool(b: bool)
    | JNumber(n: real)
    | JString(s: string)
    | JList(items: seq<Json>)
    | JObject(members: map<string, Json>)

  datatype PathError = Unsupported | Unclosed | NoKey | NoIndex | NotAnInteger

  type Found = Result<Json, PathError>

  // ----- the grammar -----

  datatype Step = Ident(name: string) | Index(digits: string) | Quoted(quote: char, key: string)

  predicate IsLetter(c: char) {
    'a' <= c <= 'z' || 'A' <= c <= 'Z' || c == '_'
  }

  predicate IsDigit(c: char) {
    '0' <= c <= '9'
  }

  predicate IsWord(c: char) {
    IsLetter(c) || IsDigit(c)
  }

  predicate IsQuote(c: char) {
    c == '\'' || c == '"'
  }

  predicate WellFormed(step: Step) {
    match step
    case Ident(name) => name != "" && IsLetter(name[0]) && forall i :: 0 <= i < |name| ==> IsWord(name[i])
    case Index(digits) => digits != "" && forall i :: 0 <= i < |digits| ==> IsDigit(digits[i])
    case Quoted(quote, key) => IsQuote(quote) && key != "" && quote !in key
  }

  ghost predicate AllWellFormed(steps: seq<Step>) {
    forall s :: s in steps ==> WellFormed(s)
  }

  function PrintStep(step: Step): (text: string)
    ensures text != ""
  {
    match step
    case Ident(name) => "." + name
    case Index(digits) => "[" + digits + "]"
    case Quoted(quote, key) => "[" + [quote] + key + [quote] + "]"
  }

  function PrintSteps(steps: seq<Step>): string {
    if steps == [] then "" else PrintStep(steps[0]) + PrintSteps(steps[1..])
  }

  function Print(steps: seq<Step>): string {
    "$" + PrintSteps(steps)
  }

  // ----- validation: the regular expression as a scanner -----

  function SkipWord(s: string): (n: nat)
    ensures n <= |s| && (forall i :: 0 <= i < n ==> IsWord(s[i])) && (n < |s| ==> !IsWord(s[n]))
  {
    if s != "" && IsWord(s[0]) then 1 + SkipWord(s[1..]) else 0
  }

  function SkipDigits(s: string): (n: nat)
    ensures n <= |s| && (forall i :: 0 <= i < n ==> IsDigit(s[i])) && (n < |s| ==> !IsDigit(s[n]))
  {
    if s != "" && IsDigit(s[0]) then 1 + SkipDigits(s[1..]) else 0
  }

  /** The position of the first `c`, or the length. */
  function Find(s: string, c: char): (n: nat)
    ensures n <= |s| && (forall i :: 0 <= i < n ==> s[i] != c) && (n < |s| ==> s[n] == c)
  {
    if s == "" || s[0] == c then 0 else 1 + Find(s[1..], c)
  }

  /** The step at the front of `s`, if there is one. */
  function FirstStep(s: string): Option<Step> {
    if |s| < 2 then None
    else if s[0] == '.' then
      if IsLetter(s[1]) then Some(Ident(s[1..1 + SkipWord(s[1..])])) else None
    else if s[0] != '[' then None
    else if IsDigit(s[1]) then
      var n := SkipDigits(s[1..]);
      if 1 + n < |s| && s[1 + n] == ']' then Some(Index(s[1..1 + n])) else None
    else if IsQuote(s[1]) then
      var n := Find(s[2..], s[1]);
      if n > 0 && 3 + n < |s| && s[3 + n] == ']' then Some(Quoted(s[1], s[2..2 + n])) else None
    else None
  }

  lemma FirstStepFits(s: string)
    requires FirstStep(s).Some?
    ensures WellFormed(FirstStep(s).value) && PrintStep(FirstStep(s).value) <= s
  {
    if s[0] == '.' {
      IdentFits(s);
    } else if IsDigit(s[1]) {
      IndexFits(s);
    } else {
      QuotedFits(s);
    }
  }

  lemma IdentFits(s: string)
    requires |s| >= 2 && s[0] == '.' && IsLetter(s[1])
    ensures var step := Ident(s[1..1 + SkipWord(s[1..])]); WellFormed(step) && PrintStep(step) <= s
  {
    var n := SkipWord(s[1..]);
    forall i | 0 <= i < n ensures s[1 + i] == s[1..][i] {}
    assert s[1..][0] == s[1];
    assert "." + s[1..1 + n] == s[..1 + n];
  }

  lemma IndexFits(s: string)
    requires |s| >= 2 && s[0] == '[' && IsDigit(s[1])
    requires var n := SkipDigits(s[1..]); 1 + n < |s| && s[1 + n] == ']'
    ensures var step := Index(s[1..1 + SkipDigits(s[1..])]); WellFormed(step) && PrintStep(step) <= s
  {
    var n := SkipDigits(s[1..]);
    forall i | 0 <= i < n ensures s[1 + i] == s[1..][i] {}
    assert s[1..][0] == s[1];
    assert "[" + s[1..1 + n] + "]" == s[..2 + n];
  }

  lemma QuotedFits(s: string)
    requires |s| >= 2 && s[0] == '[' && IsQuote(s[1])
    requires var n := Find(s[2..], s[1]); n > 0 && 3 + n < |s| && s[3 + n] == ']'
    ensures var step := Quoted(s[1], s[2..2 + Find(s[2..], s[1])]); WellFormed(step) && PrintStep(step) <= s
  {
    var n := Find(s[2..], s[1]);
    forall i | 0 <= i < n ensures s[2 + i] == s[2..][i] {}
    assert s[2 + n] == s[2..][n] == s[1];
    assert "[" + [s[1]] + s[2..2 + n] + [s[1]] + "]" == s[..4 + n];
  }

  predicate ScanSteps(s: string)
    decreases |s|
  {
    s == "" || (FirstStep(s).Some? && |PrintStep(FirstStep(s).value)| <= |s| && ScanSteps(s[|PrintStep(FirstStep(s).value)|..]))
  }

  /** `validate_jsonpath_expr`. */
  predicate Validate(expr: string) {
    var raw := Strip(expr);
    raw == "" || raw == "$" || (raw[0] == '$' && ScanSteps(raw[1..]))
  }

  /** What follows a step: nothing, or the first character of another step. */
  predicate Delimited(rest: string) {
    rest == "" || rest[0] == '.' || rest[0] == '['
  }

  lemma SkipWordIs(a: string, rest: string)
    requires forall i :: 0 <= i < |a| ==> IsWord(a[i])
    requires rest != "" ==> !IsWord(rest[0])
    ensures SkipWord(a + rest) == |a|
  {
    assert forall i :: 0 <= i < |a| ==> (a + rest)[i] == a[i];
    assert rest != "" ==> (a + rest)[|a|] == rest[0];
  }

  lemma SkipDigitsIs(a: string, rest: string)
    requires forall i :: 0 <= i < |a| ==> IsDigit(a[i])
    requires rest != "" ==> !IsDigit(rest[0])
    ensures SkipDigits(a + rest) == |a|
  {
    assert forall i :: 0 <= i < |a| ==> (a + rest)[i] == a[i];
    assert rest != "" ==> (a + rest)[|a|] == rest[0];
  }

  lemma FindIs(a: string, rest: string, c: char)
    requires c !in a && rest != "" && rest[0] == c
    ensures Find(a + rest, c) == |a|
  {
    assert forall i :: 0 <= i < |a| ==> (a + rest)[i] == a[i];
    assert (a + rest)[|a|] == rest[0];
  }

  lemma FirstIdent(name: string, rest: string)
    requires WellFormed(Ident(name)) && Delimited(rest)
    ensures FirstStep("." + name + rest) == Some(Ident(name))
  {
    hide SkipWord;
    var s := "." + name + rest;
    assert s[1..] == name + rest && s[1] == name[0];
    SkipWordIs(name, rest);
    assert s[1..1 + |name|] == name;
  }

  lemma FirstIndex(digits: string, rest: string)
    requires WellFormed(Index(digits))
    ensures FirstStep("[" + digits + "]" + rest) == Some(Index(digits))
  {
    hide SkipDigits;
    var s := "[" + digits + "]" + rest;
    assert s[1..] == digits + ("]" + rest) && s[1] == digits[0];
    SkipDigitsIs(digits, "]" + rest);
    assert s[1..1 + |digits|] == digits && s[1 + |digits|] == ']';
  }

  lemma FirstQuoted(quote: char, key: string, rest: string)
    requires WellFormed(Quoted(quote, key))
    ensures FirstStep("[" + [quote] + key + [quote] + "]" + rest) == Some(Quoted(quote, key))
  {
    hide Find;
    var s := "[" + [quote] + key + [quote] + "]" + rest;
    assert s[2..] == key + ([quote] + "]" + rest) && s[1] == quote;
    FindIs(key, [quote] + "]" + rest, quote);
    assert s[2..2 + |key|] == key && s[3 + |key|] == ']';
  }

  lemma FirstStepOf(step: Step, rest: string)
    requires WellFormed(step) && Delimited(rest)
    ensures FirstStep(PrintStep(step) + rest) == Some(step)
  {
    hide FirstStep, WellFormed;
    match step
    case Ident(name) => FirstIdent(name, rest);
    case Index(digits) => FirstIndex(digits, rest);
    case Quoted(quote, key) => FirstQuoted(quote, key, rest);
  }

  lemma PrintDelimited(steps: seq<Step>)
    ensures Delimited(PrintSteps(steps))
  {
  }

  lemma {:induction false} ScanPrinted(steps: seq<Step>)
    requires AllWellFormed(steps)
    ensures ScanSteps(PrintSteps(steps))
    decreases |steps|
  {
    hide WellFormed, FirstStep, PrintStep;
    if steps != [] {
      var rest := PrintSteps(steps[1..]);
      PrintDelimited(steps[1..]);
      FirstStepOf(steps[0], rest);
      ScanPrinted(steps[1..]);
      assert (PrintStep(steps[0]) + rest)[|PrintStep(steps[0])|..] == rest;
    }
  }

  lemma {:induction false} ScannedIsPrinted(s: string) returns (steps: seq<Step>)
    requires ScanSteps(s)
    ensures AllWellFormed(steps) && s == PrintSteps(steps)
    decreases |s|
  {
    hide WellFormed, FirstStep, PrintStep;
    if s == "" {
      steps := [];
    } else {
      var step := FirstStep(s).value;
      FirstStepFits(s);
      var rest := ScannedIsPrinted(s[|PrintStep(step)|..]);
      steps := [step] + rest;
      assert steps[1..] == rest;
      assert s == PrintStep(step) + s[|PrintStep(step)|..];
    }
  }

  lemma PrintTrimmed(steps: seq<Step>)
    requires AllWellFormed(steps)
    ensures Trimmed(Print(steps))
  {
    if steps != [] {
      PrintEnds(steps);
    }
  }

  lemma {:induction false} PrintEnds(steps: seq<Step>)
    requires AllWellFormed(steps) && steps != []
    ensures PrintSteps(steps) != "" && !IsSpace(PrintSteps(steps)[|PrintSteps(steps)| - 1])
    decreases |steps|
  {
    var first := PrintStep(steps[0]);
    assert WellFormed(steps[0]);
    assert !IsSpace(first[|first| - 1]);
    hide WellFormed, PrintStep;
    if |steps| > 1 {
      PrintEnds(steps[1..]);
    } else {
      assert PrintSteps(steps[1..]) == "";
    }
  }

  /** Validation accepts exactly the blank expression and the printed paths of well-formed steps. */
  lemma ValidateIff(expr: string)
    ensures Validate(expr) <==> Strip(expr) == "" || exists steps :: AllWellFormed(steps) && Strip(expr) == Print(steps)
  {
    hide Strip, AllWellFormed;
    var raw := Strip(expr);
    if Validate(expr) && raw != "" {
      assert ScanSteps("");
      assert raw == "$" ==> raw[1..] == "";
      var steps := ScannedIsPrinted(raw[1..]);
      assert raw == Print(steps);
    }
    forall steps | AllWellFormed(steps) && raw == Print(steps) ensures Validate(expr) {
      ScanPrinted(steps);
      assert raw[1..] == PrintSteps(steps);
    }
  }

  // ----- single lookups -----

  /** A number as `int(token)` reads it: digits with single underscores between them. */
  predicate IsNumber(s: string) {
    && s != "" && IsDigit(s[0]) && IsDigit(s[|s| - 1])
    && (forall i :: 0 <= i < |s| ==> IsDigit(s[i]) || s[i] == '_')
    && (forall i :: 0 < i < |s| ==> IsDigit(s[i - 1]) || IsDigit(s[i]))
  }

  function NumberOf(s: string): nat
    requires forall i :: 0 <= i < |s| ==> IsDigit(s[i]) || s[i] == '_'
  {
    if s == "" then 0
    else
      var n := |s| - 1;
      if s[n] == '_' then NumberOf(s[..n]) else assert IsDigit(s[n]); 10 * NumberOf(s[..n]) + (s[n] as int - '0' as int)
  }

  /** Python's `int(token)`. */
  function ParseInt(token: string): Option<int> {
    var t := Strip(token);
    if IsNumber(t) then Some(NumberOf(t))
    else if t != "" && t[0] == '-' && IsNumber(t[1..]) then
      var n: int := NumberOf(t[1..]);
      Some(-n)
    else if t != "" && t[0] == '+' && IsNumber(t[1..]) then Some(NumberOf(t[1..]))
    else None
  }

  function Member(cur: Json, key: string): Found {
    if cur.JObject? && key in cur.members then Ok(cur.members[key]) else Err(NoKey)
  }

  /** List elements count from the end when the index is negative. */
  function Item(cur: Json, token: string): Found {
    if !cur.JList? then Member(cur, token)
    else
      match ParseInt(token)
      case None => Err(NotAnInteger)
      case Some(i) =>
        if 0 <= i < |cur.items| then Ok(cur.items[i])
        else if -|cur.items| <= i < 0 then Ok(cur.items[|cur.items| + i])
        else Err(NoIndex)
  }

  function Look(cur: Json, step: Step): Found {
    match step
    case Ident(name) => Member(cur, name)
    case Index(digits) => Item(cur, digits)
    case Quoted(_, key) => Item(cur, key)
  }

  /** The left fold of the single lookups. */
  function Fold(cur: Json, steps: seq<Step>): Found {
    if steps == [] then Ok(cur)
    else if Look(cur, steps[0]).Err? then Look(cur, steps[0])
    else Fold(Look(cur, steps[0]).value, steps[1..])
  }

  // ----- evaluation of the text -----

  function TrimLeft(s: string): (r: string)
    ensures |r| <= |s| && (r != "" ==> !IsQuote(r[0]))
    ensures s != "" && IsQuote(s[0]) ==> |r| < |s|
  {
    if s != "" && IsQuote(s[0]) then TrimLeft(s[1..]) else s
  }

  function TrimRight(s: string): (r: string)
    ensures |r| <= |s| && r == s[..|r|] && (r != "" ==> !IsQuote(r[|r| - 1]))
  {
    if s != "" && IsQuote(s[|s| - 1]) then TrimRight(s[..|s| - 1]) else s
  }

  /** What is looked up for the text between brackets: blanks, then quotes removed from both ends. */
  function Token(text: string): (r: string)
    ensures r != "" ==> !IsQuote(r[0]) && !IsQuote(r[|r| - 1])
  {
    TrimRight(TrimLeft(Strip(text)))
  }

  function KeyEnd(s: string): (n: nat)
    ensures n <= |s|
  {
    if s == "" || s[0] == '.' || s[0] == '[' then 0 else 1 + KeyEnd(s[1..])
  }

  /** The loop of `resolve_jsonpath`, from the current value and the text that remains. */
  function Eval(cur: Json, rest: string): Found
    decreases |rest|
  {
    if rest == "" then Ok(cur)
    else if rest[0] == '.' then Eval(cur, rest[1..])
    else if rest[0] == '[' then
      var close := Find(rest, ']');
      if close == |rest| then Err(Unclosed)
      else
        var item := Item(cur, Token(rest[1..close]));
        if item.Err? then item else Eval(item.value, rest[close + 1..])
    else
      var n := KeyEnd(rest);
      var member := Member(cur, rest[..n]);
      if member.Err? then member else Eval(member.value, rest[n..])
  }

  function Resolve(root: Json, expr: string): Found {
    var raw := Strip(expr);
    if raw == "" || raw == "$" then Ok(root)
    else if !Validate(raw) then Err(Unsupported)
    else Eval(root, raw[1..])
  }

  method FindFrom(s: string, c: char, from: nat) returns (pos: int)
    requires from <= |s|
    ensures pos == if Find(s[from..], c) == |s| - from then -1 else from + Find(s[from..], c)
  {
    var i := from;
    while i < |s|
      invariant from <= i <= |s|
      invariant i - from + Find(s[i..], c) == Find(s[from..], c)
    {
      if s[i] == c {
        return i;
      }
      assert s[i..][1..] == s[i + 1..];
      i := i + 1;
    }
    pos := -1;
  }

  lemma EvalDone(cur: Json, rest: string)
    ensures Eval(cur, rest[|rest|..]) == Ok(cur)
  {
  }

  lemma EvalDot(cur: Json, rest: string, i: nat)
    requires i < |rest| && rest[i] == '.'
    ensures Eval(cur, rest[i..]) == Eval(cur, rest[i + 1..])
  {
    assert rest[i..][1..] == rest[i + 1..];
  }

  lemma EvalBracket(cur: Json, rest: string, i: nat)
    requires i < |rest| && rest[i] == '['
    ensures var n := Find(rest[i..], ']'); var close := i + n;
      && (n == |rest| - i ==> Eval(cur, rest[i..]) == Err(Unclosed))
      && (n < |rest| - i ==>
           && n > 0
           && Eval(cur, rest[i..]) == var item := Item(cur, Token(rest[i + 1..close]));
                if item.Err? then item else Eval(item.value, rest[close + 1..]))
  {
    hide Item, Token;
    var n := Find(rest[i..], ']');
    if n < |rest| - i {
      assert rest[i..][1..n] == rest[i + 1..i + n];
      assert rest[i..][n + 1..] == rest[i + n + 1..];
    }
  }

  lemma EvalKey(cur: Json, rest: string, i: nat)
    requires i < |rest| && rest[i] != '.' && rest[i] != '['
    ensures var n := KeyEnd(rest[i..]);
      && n > 0
      && Eval(cur, rest[i..]) == var member := Member(cur, rest[i..i + n]);
           if member.Err? then member else Eval(member.value, rest[i + n..])
  {
    hide Member;
    var n := KeyEnd(rest[i..]);
    assert rest[i..][..n] == rest[i..i + n];
    assert rest[i..][n..] == rest[i + n..];
  }

  method ResolveJsonpath(root: Json, expr: string) returns (r: Found)
    ensures r == Resolve(root, expr)
  {
    hide Strip, Eval, Validate;
    var raw := Strip(expr);
    if raw == "" || raw == "$" {
      return Ok(root);
    }
    if !Validate(raw) {
      return Err(Unsupported);
    }
    var rest := raw[1..];
    assert raw[1..][0..] == raw[1..];
    if "." <= rest {
      EvalDot(root, rest, 0);
      rest := rest[1..];
    }
    r := EvalLoop(root, rest);
  }

  /** The loop of `resolve_jsonpath`. */
  method EvalLoop(root: Json, rest: string) returns (r: Found)
    ensures r == Eval(root, rest)
  {
    hide Eval, Token, Item, Member, Find, KeyEnd;
    var cur, i := root, 0;
    assert rest[0..] == rest;
    while i < |rest|
      invariant 0 <= i <= |rest|
      invariant Eval(cur, rest[i..]) == Eval(root, rest)
    {
      if rest[i] == '.' {
        EvalDot(cur, rest, i);
        i := i + 1;
        continue;
      }
      if rest[i] == '[' {
        var close := FindFrom(rest, ']', i);
        EvalBracket(cur, rest, i);
        if close < 0 {
          return Err(Unclosed);
        }
        var item := Item(cur, Token(rest[i + 1..close]));
        if item.Err? {
          return item;
        }
        cur := item.value;
        i := close + 1;
        continue;
      }
      var j := WordEnd(rest, i);
      EvalKey(cur, rest, i);
      if j == i {
        break;
      }
      var member := Member(cur, rest[i..j]);
      if member.Err? {
        return member;
      }
      cur := member.value;
      i := j;
    }
    EvalDone(cur, rest);
    r := Ok(cur);
  }

  method WordEnd(rest: string, i: nat) returns (j: nat)
    requires i <= |rest|
    ensures j == i + KeyEnd(rest[i..])
  {
    j := i;
    while j < |rest| && rest[j] != '.' && rest[j] != '['
      invariant i <= j <= |rest|
      invariant j - i + KeyEnd(rest[j..]) == KeyEnd(rest[i..])
    {
      assert rest[j..][1..] == rest[j + 1..];
      j := j + 1;
    }
  }

  // ----- evaluation of a printed path -----

  /** A quoted key that survives the search for the closing bracket and the stripping of quotes. */
  predicate Faithful(step: Step) {
    step.Quoted? ==> step.key != "" && ']' !in step.key && !IsQuote(step.key[0]) && !IsQuote(step.key[|step.key| - 1])
  }

  /** The token that evaluation looks up for a bracket step. */
  function TokenOf(step: Step): string
    requires step.Quoted?
  {
    Token([step.quote] + step.key[..Find(step.key, ']')] + (if ']' in step.key then [] else [step.quote]))
  }

  lemma FindCut(key: string, tail: string)
    requires ']' in tail
    ensures ']' in key ==> Find(key + tail, ']') == Find(key, ']') < |key|
    ensures ']' !in key ==> Find(key + tail, ']') == |key| + Find(tail, ']') && Find(key, ']') == |key|
  {
    assert forall i :: 0 <= i < |key| ==> (key + tail)[i] == key[i];
    assert forall i :: 0 <= i < |tail| ==> (key + tail)[|key| + i] == tail[i];
  }

  lemma StripKeepsQuoted(quote: char, text: string)
    requires IsQuote(quote)
    ensures var r := Strip([quote] + text); r != "" && r[0] == quote && |r| <= 1 + |text|
  {
    var s := [quote] + text;
    assert StripLeft(s) == s;
    StripRightKeeps(s);
  }

  lemma {:induction false} StripRightKeeps(s: string)
    requires s != "" && !IsSpace(s[0])
    ensures StripRight(s) != "" && StripRight(s)[0] == s[0]
    decreases |s|
  {
    if IsSpace(s[|s| - 1]) {
      StripRightKeeps(s[..|s| - 1]);
    }
  }

  /** The token is the key itself exactly when the step is faithful. */
  lemma TokenIff(step: Step)
    requires WellFormed(step) && step.Quoted?
    ensures TokenOf(step) == step.key <==> Faithful(step)
  {
    hide Strip, StripLeft, StripRight;
    var quote, key := step.quote, step.key;
    if ']' in key {
      StripKeepsQuoted(quote, key[..Find(key, ']')]);
      FindCut(key, "]");
      assert [quote] + key[..Find(key, ']')] + [] == [quote] + key[..Find(key, ']')];
    } else {
      FindCut(key, "]");
      assert key[..|key|] == key;
      var s := [quote] + key + [quote];
      QuotedIsTrimmed(quote, key);
      if Faithful(step) {
        TrimQuoted(quote, key);
      }
    }
  }

  lemma QuotedIsTrimmed(quote: char, key: string)
    requires IsQuote(quote)
    ensures Strip([quote] + key + [quote]) == [quote] + key + [quote]
  {
    StripOfTrimmed([quote] + key + [quote]);
  }

  lemma TrimQuoted(quote: char, key: string)
    requires IsQuote(quote) && key != "" && !IsQuote(key[0]) && !IsQuote(key[|key| - 1])
    ensures TrimRight(TrimLeft([quote] + key + [quote])) == key
  {
    assert ([quote] + key + [quote])[1..] == key + [quote];
    assert TrimLeft([quote] + key + [quote]) == key + [quote];
    assert (key + [quote])[..|key|] == key;
  }

  lemma EvalIdent(cur: Json, name: string, rest: string)
    requires WellFormed(Ident(name)) && Delimited(rest)
    ensures Eval(cur, "." + name + rest)
            == var found := Look(cur, Ident(name)); if found.Err? then found else Eval(found.value, rest)
  {
    hide Eval, KeyEnd;
    var s := "." + name + rest;
    EvalDot(cur, s, 0);
    assert s[0..] == s && s[1] == name[0];
    EvalKey(cur, s, 1);
    assert s[1..] == name + rest;
    KeyEndIs(name, rest);
    assert s[1..1 + |name|] == name && s[1 + |name|..] == rest;
  }

  lemma KeyEndNext(s: string)
    requires s != "" && IsWord(s[0])
    ensures KeyEnd(s) == 1 + KeyEnd(s[1..])
  {
  }

  lemma {:induction false} KeyEndIs(name: string, rest: string)
    requires (forall i :: 0 <= i < |name| ==> IsWord(name[i])) && Delimited(rest)
    ensures KeyEnd(name + rest) == |name|
    decreases |name|
  {
    hide IsWord;
    if name == "" {
      assert name + rest == rest;
    } else {
      var s, tail := name + rest, name[1..];
      assert s[0] == name[0] && IsWord(name[0]) && s[1..] == tail + rest;
      forall i | 0 <= i < |tail| ensures IsWord(tail[i]) {
        assert tail[i] == name[i + 1];
      }
      KeyEndIs(tail, rest);
      KeyEndNext(s);
    }
  }

  lemma TokenOfDigits(digits: string)
    requires WellFormed(Index(digits))
    ensures Token(digits) == digits
  {
    assert Trimmed(digits);
    StripOfTrimmed(digits);
    hide Strip;
    assert TrimLeft(digits) == digits && TrimRight(digits) == digits;
  }

  lemma EvalIndex(cur: Json, digits: string, rest: string)
    requires WellFormed(Index(digits))
    ensures Eval(cur, "[" + digits + "]" + rest)
            == var found := Look(cur, Index(digits)); if found.Err? then found else Eval(found.value, rest)
  {
    hide Eval, Find, Token, Item;
    var s := "[" + digits + "]" + rest;
    EvalBracket(cur, s, 0);
    assert s == ("[" + digits) + ("]" + rest) && s[0..] == s;
    FindIs("[" + digits, "]" + rest, ']');
    assert s[1..1 + |digits|] == digits && s[|digits| + 2..] == rest;
    TokenOfDigits(digits);
  }

  lemma FindThird(a: string, key: string, tail: string)
    requires ']' !in a && ']' in tail
    ensures Find(a + (key + tail), ']') == |a| + (if ']' in key then Find(key, ']') else |key| + Find(tail, ']'))
    ensures ']' in key ==> Find(key, ']') < |key|
  {
    hide Find;
    FindCut(key, tail);
    assert (key + tail)[|key|..] == tail;
    FindCut(a, key + tail);
  }

  lemma QuotedParts(quote: char, key: string, rest: string)
    ensures var s := "[" + [quote] + key + [quote] + "]" + rest;
      && s == ("[" + [quote]) + (key + ([quote] + ("]" + rest)))
      && s[1..|key| + 3] == [quote] + key + [quote] && s[|key| + 4..] == rest
  {
  }

  lemma QuotedPrefix(quote: char, key: string, rest: string, n: nat)
    requires n <= |key|
    ensures ("[" + [quote] + key + [quote] + "]" + rest)[1..2 + n] == [quote] + key[..n]
  {
  }

  /** Where the closing bracket of a quoted step is found. */
  lemma QuotedClose(quote: char, key: string, rest: string)
    requires IsQuote(quote)
    ensures var s := "[" + [quote] + key + [quote] + "]" + rest;
      Find(s, ']') == if ']' in key then 2 + Find(key, ']') else |key| + 3
    ensures ']' in key ==> Find(key, ']') < |key|
  {
    hide Find;
    QuotedParts(quote, key, rest);
    var tail := [quote] + ("]" + rest);
    assert tail[1] == ']';
    FindIs([quote], "]" + rest, ']');
    FindThird("[" + [quote], key, tail);
  }

  lemma QuotedToken(step: Step, rest: string)
    requires step.Quoted? && IsQuote(step.quote)
    ensures var s := PrintStep(step) + rest; var n := Find(s, ']');
      n < |s| && Token(s[1..n]) == TokenOf(step) && (']' !in step.key ==> s[n + 1..] == rest)
  {
    hide Token, Find;
    var quote, key := step.quote, step.key;
    QuotedParts(quote, key, rest);
    QuotedClose(quote, key, rest);
    FindCut(key, "]");
    QuotedPrefix(quote, key, rest, Find(key, ']'));
    assert [quote] + key[..Find(key, ']')] + [] == [quote] + key[..Find(key, ']')];
    assert key[..|key|] == key;
  }

  /** Whether faithful or not, a quoted step looks up its token first. */
  lemma EvalQuoted(cur: Json, step: Step, rest: string)
    requires WellFormed(step) && step.Quoted?
    ensures Item(cur, TokenOf(step)).Err? ==> Eval(cur, PrintStep(step) + rest) == Item(cur, TokenOf(step))
    ensures Faithful(step) && Item(cur, TokenOf(step)).Ok? ==>
              Eval(cur, PrintStep(step) + rest) == Eval(Item(cur, TokenOf(step)).value, rest)
  {
    hide Eval, Find, Token, TokenOf, Item;
    var s := PrintStep(step) + rest;
    assert s[0..] == s;
    QuotedToken(step, rest);
    EvalBracket(cur, s, 0);
  }

  lemma EvalStep(cur: Json, step: Step, rest: string)
    requires WellFormed(step) && Faithful(step) && Delimited(rest)
    ensures Eval(cur, PrintStep(step) + rest)
            == var found := Look(cur, step); if found.Err? then found else Eval(found.value, rest)
  {
    hide Eval, Find, Token, TokenOf, Item, Member, WellFormed, Faithful;
    match step
    case Ident(name) => EvalIdent(cur, name, rest);
    case Index(digits) => EvalIndex(cur, digits, rest);
    case Quoted(quote, key) =>
      TokenIff(step);
      EvalQuoted(cur, step, rest);
  }

  lemma {:induction false} EvalPrinted(cur: Json, steps: seq<Step>)
    requires AllWellFormed(steps) && forall s :: s in steps ==> Faithful(s)
    ensures Eval(cur, PrintSteps(steps)) == Fold(cur, steps)
    decreases |steps|
  {
    hide Look, WellFormed, Faithful, PrintStep;
    if steps != [] {
      PrintDelimited(steps[1..]);
      EvalStep(cur, steps[0], PrintSteps(steps[1..]));
      if Look(cur, steps[0]).Ok? {
        EvalPrinted(Look(cur, steps[0]).value, steps[1..]);
      }
    }
  }

  lemma ResolvePrinted(root: Json, steps: seq<Step>)
    requires AllWellFormed(steps)
    ensures Resolve(root, Print(steps)) == Eval(root, PrintSteps(steps))
  {
    PrintTrimmed(steps);
    StripOfTrimmed(Print(steps));
    ScanPrinted(steps);
    hide Strip, ScanSteps, PrintSteps;
    assert Print(steps)[1..] == PrintSteps(steps);
    assert Print(steps) == "$" ==> PrintSteps(steps) == "";
  }

  // ----- and of no other path -----

  /** An object on which the single lookups of `steps` all succeed. */
  function Witness(steps: seq<Step>): Json {
    if steps == [] then JNull
    else
      var key := match steps[0] case Ident(name) => name case Index(digits) => digits case Quoted(_, k) => k;
      JObject(map[key := Witness(steps[1..])])
  }

  lemma {:induction false} WitnessFolds(steps: seq<Step>)
    ensures Fold(Witness(steps), steps) == Ok(JNull)
    decreases |steps|
  {
    if steps != [] {
      WitnessFolds(steps[1..]);
      assert Look(Witness(steps), steps[0]) == Ok(Witness(steps[1..]));
    }
  }

  lemma {:induction false} UnfaithfulFails(steps: seq<Step>, i: nat)
    requires AllWellFormed(steps) && i < |steps| && !Faithful(steps[i])
    ensures Eval(Witness(steps), PrintSteps(steps)) == Err(NoKey)
    decreases |steps|
  {
    hide WellFormed, Faithful, PrintStep, TokenOf, Eval;
    var rest := PrintSteps(steps[1..]);
    PrintDelimited(steps[1..]);
    if Faithful(steps[0]) {
      EvalStep(Witness(steps), steps[0], rest);
      assert Look(Witness(steps), steps[0]) == Ok(Witness(steps[1..]));
      UnfaithfulFails(steps[1..], i - 1);
    } else {
      UnfaithfulIsQuoted(steps[0]);
      TokenIff(steps[0]);
      EvalQuoted(Witness(steps), steps[0], rest);
      assert Witness(steps).members.Keys == {steps[0].key};
    }
  }

  lemma UnfaithfulIsQuoted(step: Step)
    requires !Faithful(step)
    ensures step.Quoted?
  {
  }

  /**
   Evaluating a printed path is looking up its steps one after the other, on every
   value, exactly when no quoted key holds a closing bracket or begins or ends with a quote.
  */
  lemma ResolveIsFoldIff(steps: seq<Step>)
    requires AllWellFormed(steps)
    ensures (forall root :: Resolve(root, Print(steps)) == Fold(root, steps)) <==> forall s :: s in steps ==> Faithful(s)
  {
    hide Resolve, Faithful, WellFormed, Fold, Print, PrintSteps, Eval;
    if forall s :: s in steps ==> Faithful(s) {
      forall root ensures Resolve(root, Print(steps)) == Fold(root, steps) {
        ResolvePrinted(root, steps);
        EvalPrinted(root, steps);
      }
    } else {
      var s :| s in steps && !Faithful(s);
      var i :| 0 <= i < |steps| && steps[i] == s;
      UnfaithfulFails(steps, i);
      WitnessFolds(steps);
      ResolvePrinted(Witness(steps), steps);
    }
  }

  // ----- what a path finds, written out -----

  /** A number in the usual notation. */
  function Decimal(n: nat): (text: string)
    ensures text != "" && forall i :: 0 <= i < |text| ==> '0' <= text[i] <= '9'
  {
    if n < 10 then [('0' as int + n) as char] else Decimal(n / 10) + [('0' as int + n % 10) as char]
  }

  lemma {:induction false} NumberOfDecimal(n: nat)
    ensures NumberOf(Decimal(n)) == n
    decreases n
  {
    var text := Decimal(n);
    if n < 10 {
      assert text[..0] == "" && NumberOf("") == 0;
    } else {
      NumberOfDecimal(n / 10);
      assert text[..|text| - 1] == Decimal(n / 10);
    }
  }

  lemma DecimalIsNumber(n: nat)
    ensures IsNumber(Decimal(n)) && Trimmed(Decimal(n)) && WellFormed(Index(Decimal(n)))
  {
    hide Decimal;
  }

  /** A sign before a number; without one the number stands alone. */
  lemma ParseSigned(n: nat)
    ensures ParseInt(Decimal(n)) == Some(n) && ParseInt("+" + Decimal(n)) == Some(n)
    ensures ParseInt("-" + Decimal(n)) == Some(-(n as int))
  {
    NumberOfDecimal(n);
    DecimalIsNumber(n);
    hide Decimal, NumberOf, Strip, IsNumber;
    var text := Decimal(n);
    StripOfTrimmed(text);
    StripOfTrimmed("+" + text);
    StripOfTrimmed("-" + text);
    assert ("+" + text)[1..] == text && ("-" + text)[1..] == text;
    SignIsNoNumber("+" + text);
    SignIsNoNumber("-" + text);
  }

  lemma SignIsNoNumber(s: string)
    requires s != "" && !IsDigit(s[0])
    ensures !IsNumber(s)
  {
  }

  /** A path of one step looks that step up. */
  lemma ResolveOne(root: Json, step: Step)
    requires WellFormed(step) && Faithful(step)
    ensures Resolve(root, "$" + PrintStep(step)) == Look(root, step)
  {
    hide WellFormed, Faithful, PrintStep, Look, Resolve;
    assert [step][1..] == [] && PrintSteps([step]) == PrintStep(step) + "";
    assert PrintStep(step) + "" == PrintStep(step);
    ResolvePrinted(root, [step]);
    EvalPrinted(root, [step]);
    FoldOne(root, step);
  }

  lemma FoldOne(root: Json, step: Step)
    ensures Fold(root, [step]) == Look(root, step)
  {
    hide Look;
    assert [step][1..] == [];
  }

  /** A list is indexed from its front, starting at 0. */
  lemma IndexFinds(items: seq<Json>, n: nat)
    ensures Resolve(JList(items), "$[" + Decimal(n) + "]") == if n < |items| then Ok(items[n]) else Err(NoIndex)
  {
    hide Resolve, Decimal, ParseInt, Item;
    ParseSigned(n);
    ItemFromFront(items, Decimal(n), n);
    ResolveIndex(JList(items), n);
  }

  lemma ItemFromFront(items: seq<Json>, token: string, n: nat)
    requires ParseInt(token) == Some(n)
    ensures Item(JList(items), token) == if n < |items| then Ok(items[n]) else Err(NoIndex)
  {
    hide ParseInt;
  }

  lemma ItemFromEnd(items: seq<Json>, token: string, n: nat)
    requires n > 0 && ParseInt(token) == Some(-(n as int))
    ensures Item(JList(items), token) == if n <= |items| then Ok(items[|items| - n]) else Err(NoIndex)
  {
    hide ParseInt;
  }

  /** A quoted index may carry a sign. */
  lemma PlusIndexFinds(items: seq<Json>, quote: char, n: nat)
    requires quote in {'\'', '"'}
    ensures Resolve(JList(items), "$[" + [quote] + ("+" + Decimal(n)) + [quote] + "]")
            == if n < |items| then Ok(items[n]) else Err(NoIndex)
  {
    ParseSigned(n);
    SignedIsQuotable(quote, "+", n);
    hide *;
    ItemFromFront(items, "+" + Decimal(n), n);
    ResolveQuoted(JList(items), quote, "+" + Decimal(n));
  }

  /** A negative index counts from the end. */
  lemma NegativeIndexFinds(items: seq<Json>, quote: char, n: nat)
    requires quote in {'\'', '"'} && n > 0
    ensures Resolve(JList(items), "$[" + [quote] + ("-" + Decimal(n)) + [quote] + "]")
            == if n <= |items| then Ok(items[|items| - n]) else Err(NoIndex)
  {
    ParseSigned(n);
    SignedIsQuotable(quote, "-", n);
    hide *;
    ItemFromEnd(items, "-" + Decimal(n), n);
    ResolveQuoted(JList(items), quote, "-" + Decimal(n));
  }

  lemma SignedIsQuotable(quote: char, sign: string, n: nat)
    requires quote in {'\'', '"'} && sign in {"+", "-"}
    ensures IsQuotable(quote, sign + Decimal(n))
  {
    hide Decimal;
    var key := sign + Decimal(n);
    forall c | c in key ensures c != '\'' && c != '"' && c != ']' {
      assert c in sign || c in Decimal(n);
    }
    assert key[0] in key && key[|key| - 1] in key;
  }

  /** Blanks around a quoted index do not matter. */
  lemma BlanksAroundIndex(items: seq<Json>, quote: char, key: string, padded: string)
    requires IsQuotable(quote, key) && IsQuotable(quote, padded) && Strip(padded) == Strip(key)
    ensures Resolve(JList(items), "$[" + [quote] + padded + [quote] + "]")
            == Resolve(JList(items), "$[" + [quote] + key + [quote] + "]")
  {
    assert ParseInt(padded) == ParseInt(key);
    hide *;
    SameNumberSameItem(items, padded, key);
    ResolveQuoted(JList(items), quote, key);
    ResolveQuoted(JList(items), quote, padded);
  }

  lemma {:induction false} NumberOfJoined(a: string, b: string)
    requires forall i :: 0 <= i < |a| ==> IsDigit(a[i])
    requires forall i :: 0 <= i < |b| ==> IsDigit(b[i])
    ensures NumberOf(a + "_" + b) == NumberOf(a + b)
    decreases |b|
  {
    var n := |b| - 1;
    if b == "" {
      assert a + "_" + b == a + "_" && a + b == a && (a + "_")[..|a|] == a;
    } else {
      NumberOfJoined(a, b[..n]);
      assert (a + "_" + b)[..|a + "_" + b| - 1] == a + "_" + b[..n];
      assert (a + b)[..|a + b| - 1] == a + b[..n];
    }
  }

  lemma JoinedIsNumber(quote: char, a: string, b: string)
    requires IsQuote(quote) && WellFormed(Index(a)) && WellFormed(Index(b))
    ensures IsNumber(a + "_" + b) && IsNumber(a + b)
    ensures IsQuotable(quote, a + "_" + b) && IsQuotable(quote, a + b) && Trimmed(a + "_" + b) && Trimmed(a + b)
  {
  }

  lemma ParseJoined(a: string, b: string)
    requires IsNumber(a + "_" + b) && IsNumber(a + b) && Trimmed(a + "_" + b) && Trimmed(a + b)
    requires NumberOf(a + "_" + b) == NumberOf(a + b)
    ensures ParseInt(a + "_" + b) == ParseInt(a + b)
  {
    StripOfTrimmed(a + "_" + b);
    StripOfTrimmed(a + b);
  }

  /** Digits of an index may be separated by an underscore. */
  lemma UnderscoreInIndex(items: seq<Json>, quote: char, a: string, b: string)
    requires IsQuote(quote) && WellFormed(Index(a)) && WellFormed(Index(b))
    ensures Resolve(JList(items), "$[" + [quote] + (a + "_" + b) + [quote] + "]")
            == Resolve(JList(items), "$[" + [quote] + (a + b) + [quote] + "]")
  {
    JoinedIsNumber(quote, a, b);
    NumberOfJoined(a, b);
    hide *;
    ParseJoined(a, b);
    SameNumberSameItem(items, a + "_" + b, a + b);
    ResolveQuoted(JList(items), quote, a + "_" + b);
    ResolveQuoted(JList(items), quote, a + b);
  }

  lemma SameNumberSameItem(items: seq<Json>, x: string, y: string)
    requires ParseInt(x) == ParseInt(y)
    ensures Item(JList(items), x) == Item(JList(items), y)
  {
    hide ParseInt;
  }

  /** A key of letters is no index. */
  lemma WordIsNoIndex(items: seq<Json>, quote: char, key: string)
    requires quote in {'\'', '"'} && key != "" && forall c :: c in key ==> 'a' <= c <= 'z' || 'A' <= c <= 'Z'
    ensures Resolve(JList(items), "$[" + [quote] + key + [quote] + "]") == Err(NotAnInteger)
  {
    assert key[0] in key && key[|key| - 1] in key;
    assert IsQuotable(quote, key);
    StripOfTrimmed(key);
    SignIsNoNumber(key);
    hide Resolve, Strip, IsNumber, NumberOf, IsQuotable;
    ResolveQuoted(JList(items), quote, key);
  }

  /** A name that may follow a dot. */
  predicate IsName(name: string) {
    && name != "" && !('0' <= name[0] <= '9')
    && forall c :: c in name ==> 'a' <= c <= 'z' || 'A' <= c <= 'Z' || '0' <= c <= '9' || c == '_'
  }

  /** A key that brackets and quotes can carry. */
  predicate IsQuotable(quote: char, key: string) {
    && quote in {'\'', '"'} && key != "" && quote !in key && ']' !in key
    && key[0] !in {'\'', '"'} && key[|key| - 1] !in {'\'', '"'}
  }

  /** An object gives the member of exactly the name asked for, in each of the three notations. */
  lemma MemberFinds(members: map<string, Json>, name: string, quote: char, key: string, n: nat)
    requires IsName(name) && IsQuotable(quote, key)
    ensures var root := JObject(members); var found := (k: string) => if k in members then Ok(members[k]) else Err(NoKey);
      && Resolve(root, "$." + name) == found(name)
      && Resolve(root, "$[" + [quote] + key + [quote] + "]") == found(key)
      && Resolve(root, "$[" + Decimal(n) + "]") == found(Decimal(n))
  {
    hide Resolve, Decimal, ParseInt, IsName, IsQuotable;
    var root := JObject(members);
    ResolveName(root, name);
    ResolveQuoted(root, quote, key);
    ResolveIndex(root, n);
  }

  lemma ResolveName(root: Json, name: string)
    requires IsName(name)
    ensures Resolve(root, "$." + name) == Member(root, name)
  {
    NameIsStep(name);
    hide Resolve, WellFormed, Member;
    ResolveOne(root, Ident(name));
  }

  lemma ResolveQuoted(root: Json, quote: char, key: string)
    requires IsQuotable(quote, key)
    ensures Resolve(root, "$[" + [quote] + key + [quote] + "]") == Item(root, key)
  {
    hide Resolve, Item;
    var step := Quoted(quote, key);
    assert WellFormed(step) && Faithful(step);
    assert "$" + PrintStep(step) == "$[" + [quote] + key + [quote] + "]";
    hide WellFormed, Faithful;
    ResolveOne(root, step);
  }

  lemma ResolveIndex(root: Json, n: nat)
    ensures Resolve(root, "$[" + Decimal(n) + "]") == Item(root, Decimal(n))
  {
    hide Resolve, Decimal, Item, WellFormed;
    DecimalIsNumber(n);
    assert "$" + PrintStep(Index(Decimal(n))) == "$[" + Decimal(n) + "]";
    ResolveOne(root, Index(Decimal(n)));
  }

  lemma NameIsStep(name: string)
    ensures WellFormed(Ident(name)) <==> IsName(name)
    ensures "$" + PrintStep(Ident(name)) == "$." + name
  {
    forall c | c in name ensures exists i :: 0 <= i < |name| && name[i] == c {}
    forall i | 0 <= i < |name| ensures name[i] in name {}
  }

  /** The three notations of a step: a name, digits without a sign, and quoted text without that quote. */
  lemma StepsAreWritten(name: string, digits: string, quote: char, key: string)
    ensures WellFormed(Ident(name)) <==> IsName(name)
    ensures WellFormed(Index(digits)) <==> digits != "" && forall c :: c in digits ==> '0' <= c <= '9'
    ensures WellFormed(Quoted(quote, key)) <==> quote in {'\'', '"'} && key != "" && quote !in key
    ensures Print([Ident(name)]) == "$." + name && Print([Index(digits)]) == "$[" + digits + "]"
    ensures Print([Quoted(quote, key)]) == "$[" + [quote] + key + [quote] + "]"
  {
    NameIsStep(name);
    forall c | c in digits ensures exists i :: 0 <= i < |digits| && digits[i] == c {}
    forall i | 0 <= i < |digits| ensures digits[i] in digits {}
    hide WellFormed, IsName;
    PrintOne(Ident(name));
    PrintOne(Index(digits));
    PrintOne(Quoted(quote, key));
  }

  lemma PrintOne(step: Step)
    ensures Print([step]) == "$" + PrintStep(step)
  {
    hide PrintStep;
    assert [step][1..] == [] && PrintSteps([step]) == PrintStep(step) + "";
    assert PrintStep(step) + "" == PrintStep(step);
  }

  lemma Regroup(a: string, b: string, c: string)
    ensures a + (b + c) == a + b + c
  {
  }

  /** A path is written by writing its steps one after the other. */
  lemma {:induction false} PrintAppend(a: seq<Step>, b: seq<Step>)
    ensures PrintSteps(a + b) == PrintSteps(a) + PrintSteps(b)
    decreases |a|
  {
    hide PrintStep;
    if a == [] {
      assert a + b == b && "" + PrintSteps(b) == PrintSteps(b);
    } else {
      assert (a + b)[1..] == a[1..] + b && (a + b)[0] == a[0];
      PrintAppend(a[1..], b);
      Regroup(PrintStep(a[0]), PrintSteps(a[1..]), PrintSteps(b));
    }
  }

  /** Nothing is found in a value that is neither list nor object, and a list has no members. */
  lemma NothingFinds(root: Json, name: string, quote: char, key: string, n: nat)
    requires !root.JObject? && IsName(name) && IsQuotable(quote, key)
    ensures Resolve(root, "$." + name) == Err(NoKey)
    ensures !root.JList? ==> Resolve(root, "$[" + [quote] + key + [quote] + "]") == Err(NoKey)
    ensures !root.JList? ==> Resolve(root, "$[" + Decimal(n) + "]") == Err(NoKey)
  {
    hide Resolve, Decimal, ParseInt, IsName, IsQuotable;
    ResolveName(root, name);
    ResolveQuoted(root, quote, key);
    ResolveIndex(root, n);
  }

  lemma {:induction false} FoldAppend(root: Json, a: seq<Step>, b: seq<Step>)
    ensures Fold(root, a + b) == if Fold(root, a).Err? then Fold(root, a) else Fold(Fold(root, a).value, b)
    decreases |a|
  {
    hide Look;
    if a == [] {
      assert a + b == b;
    } else {
      assert (a + b)[1..] == a[1..] + b;
      if Look(root, a[0]).Ok? {
        FoldAppend(Look(root, a[0]).value, a[1..], b);
      }
    }
  }

  /** A path goes on from where its front part led; the empty path and the blank expression name the value itself. */
  lemma ResolveGoesOn(root: Json, a: seq<Step>, b: seq<Step>, blank: string)
    requires AllWellFormed(a + b) && (forall s :: s in a + b ==> Faithful(s)) && Strip(blank) == ""
    ensures Resolve(root, "$") == Resolve(root, blank) == Ok(root)
    ensures var front := Resolve(root, Print(a));
      Resolve(root, Print(a + b)) == if front.Err? then front else Resolve(front.value, Print(b))
  {
    hide Faithful, WellFormed, Print, Strip, Eval, Fold;
    assert Trimmed("$");
    StripOfTrimmed("$");
    hide Resolve;
    forall s | s in a || s in b ensures s in a + b {}
    FoldAppend(root, a, b);
    ResolveIsFold(root, a + b);
    ResolveIsFold(root, a);
    if Fold(root, a).Ok? {
      ResolveIsFold(Fold(root, a).value, b);
    }
  }

  lemma ResolveIsFold(root: Json, steps: seq<Step>)
    requires AllWellFormed(steps) && forall s :: s in steps ==> Faithful(s)
    ensures Resolve(root, Print(steps)) == Fold(root, steps)
  {
    hide Resolve, Faithful, WellFormed, Fold, Print, PrintSteps, Eval;
    ResolvePrinted(root, steps);
    EvalPrinted(root, steps);
  }

  /** An expression is reported as unsupported exactly if validation refuses it. */
  lemma UnsupportedIff(root: Json, expr: string)
    ensures Resolve(root, expr) == Err(Unsupported) <==> !Validate(expr)
  {
    StripOfTrimmed(Strip(expr));
    hide Strip, ScanSteps;
    var raw := Strip(expr);
    if raw != "" && raw != "$" && Validate(raw) {
      EvalSupported(root, raw[1..]);
    }
  }

  lemma {:induction false} EvalSupported(cur: Json, rest: string)
    ensures Eval(cur, rest) != Err(Unsupported)
    decreases |rest|
  {
    hide Token, Item, Member, Find, KeyEnd;
    SupportedLookup();
    if rest == "" {
    } else if rest[0] == '.' {
      EvalSupported(cur, rest[1..]);
    } else if rest[0] == '[' {
      var close := Find(rest, ']');
      if close < |rest| && Item(cur, Token(rest[1..close])).Ok? {
        EvalSupported(Item(cur, Token(rest[1..close])).value, rest[close + 1..]);
      }
    } else {
      var n := KeyEnd(rest);
      KeyEndPositive(rest);
      if Member(cur, rest[..n]).Ok? {
        EvalSupported(Member(cur, rest[..n]).value, rest[n..]);
      }
    }
  }

  lemma SupportedLookup()
    ensures forall cur, token :: Item(cur, token) != Err(Unsupported) && Member(cur, token) != Err(Unsupported)
  {
    hide ParseInt;
  }

  // ----- the unclosed-bracket error never happens -----

  ghost predicate BracketsClose(s: string) {
    forall i :: 0 <= i < |s| && s[i] == '[' ==> ']' in s[i..]
  }

  lemma {:induction false} PrintedClose(steps: seq<Step>)
    requires AllWellFormed(steps)
    ensures BracketsClose(PrintSteps(steps))
    decreases |steps|
  {
    if steps != [] {
      var first, rest := PrintStep(steps[0]), PrintSteps(steps[1..]);
      PrintedClose(steps[1..]);
      assert WellFormed(steps[0]);
      assert !steps[0].Ident? ==> first[|first| - 1] == ']';
      assert steps[0].Ident? ==> '[' !in first;
      hide WellFormed, PrintStep;
      StepCloses(first, rest);
    }
  }

  lemma StepCloses(first: string, rest: string)
    requires BracketsClose(rest) && first != ""
    requires first[|first| - 1] == ']' || '[' !in first
    ensures BracketsClose(first + rest)
  {
    var s := first + rest;
    forall i | 0 <= i < |s| && s[i] == '[' ensures ']' in s[i..] {
      if i < |first| {
        assert first[i] in first;
        assert s[i..][|first| - 1 - i] == ']';
      } else {
        assert s[i..] == rest[i - |first|..];
      }
    }
  }

  lemma SuffixCloses(s: string, n: nat)
    requires BracketsClose(s) && n <= |s|
    ensures BracketsClose(s[n..])
  {
    forall i | 0 <= i < |s[n..]| && s[n..][i] == '[' ensures ']' in s[n..][i..] {
      assert s[n..][i..] == s[n + i..];
    }
  }

  lemma KeyEndPositive(s: string)
    requires s != "" && s[0] != '.' && s[0] != '['
    ensures KeyEnd(s) > 0
  {
  }

  lemma NoUnclosedLookup()
    ensures forall cur, token :: Item(cur, token) != Err(Unclosed) && Member(cur, token) != Err(Unclosed)
  {
    hide ParseInt;
  }

  lemma {:induction false} EvalCloses(cur: Json, rest: string)
    requires BracketsClose(rest)
    ensures Eval(cur, rest) != Err(Unclosed)
    decreases |rest|
  {
    hide Token, BracketsClose, Item, Member, Find, KeyEnd;
    NoUnclosedLookup();
    if rest == "" {
    } else if rest[0] == '.' {
      SuffixCloses(rest, 1);
      EvalCloses(cur, rest[1..]);
    } else if rest[0] == '[' {
      var close := Find(rest, ']');
      HeadCloses(rest);
      SuffixCloses(rest, close + 1);
      var item := Item(cur, Token(rest[1..close]));
      if item.Ok? {
        EvalCloses(item.value, rest[close + 1..]);
      }
    } else {
      var n := KeyEnd(rest);
      KeyEndPositive(rest);
      SuffixCloses(rest, n);
      if Member(cur, rest[..n]).Ok? {
        EvalCloses(Member(cur, rest[..n]).value, rest[n..]);
      }
    }
  }

  lemma HeadCloses(rest: string)
    requires BracketsClose(rest) && rest != "" && rest[0] == '['
    ensures Find(rest, ']') < |rest|
  {
    assert rest[0..] == rest;
  }

  /** No expression that passes validation is ever reported as unclosed. */
  lemma NeverUnclosed(root: Json, expr: string)
    ensures Resolve(root, expr) != Err(Unclosed)
  {
    hide Strip, Eval, AllWellFormed;
    var raw := Strip(expr);
    if raw != "" && raw != "$" && Validate(raw) {
      StripTwice(expr);
      var steps := ScannedIsPrinted(raw[1..]);
      PrintedClose(steps);
      EvalCloses(root, raw[1..]);
    }
  }

  lemma StripTwice(s: string)
    ensures Strip(Strip(s)) == Strip(s)
  {
    StripOfTrimmed(Strip(s));
  }
}
