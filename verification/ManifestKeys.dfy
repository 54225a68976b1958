/**
 Key resolution for signed manifests. The executor chooses a key id and key to sign
 with, the scheduler finds the key to verify with; the two are written independently
 and read the same configuration. HMAC is an arbitrary function of key and message.
*/
module ManifestKeys {
  import opened Text
  import opened Wrappers

  /** A JSON value as the code sees it: null, or something with a text form. */
  datatype JsonVal = JNull | JText(text: string)
  {
    /** Python's `str(value)`. */
    function Str(): string {
      if JNull? then "None" else text
    }
  }

  datatype Entry = Entry(key: string, val: JsonVal)

  ghost predicate DistinctKeys(entries: seq<Entry>) {
    forall i, j :: 0 <= i < j < |entries| ==> entries[i].key != entries[j].key
  }

  /** A parsed JSON object: entries in insertion order, keys distinct. */
  type Entries = e: seq<Entry> | DistinctKeys(e) witness []

  /** The managed key file; a missing or unreadable file has no entries. */
  datatype Blob = Blob(activeKeyId: Option<JsonVal>, hmacKeys: Option<Entries>, allowedKeyIds: Option<seq<JsonVal>>)

  datatype KeyJson = Absent | Malformed | NotAnObject | Object(entries: Entries)

  datatype Env = Env(
    blob: Blob,
    activeKeyId: Option<string>,
    signingKey: Option<string>,
    keysJson: KeyJson,
    allowedKeyIds: string,
    strict: bool,
    vars: map<string, string>)

  datatype SignError = ActiveKidMissing | KeysetMissing | KeyIdNotAllowed | MissingHmacKey

  datatype Signature = Signature(keyId: string, text: string)

  type Hmac = (string, string) -> string

  type Keyset = map<string, string>

  // ----- what both processes compute -----

  function GetEnv(vars: map<string, string>, name: string): string {
    if name in vars then vars[name] else ""
  }

  function ActiveKeyId(env: Env): (kid: string)
    ensures kid != "" && Trimmed(kid)
  {
    var managed := if env.blob.activeKeyId.Some? then Strip(env.blob.activeKeyId.value.Str()) else "";
    var own := Strip(if env.activeKeyId.Some? then env.activeKeyId.value else "v1");
    if managed != "" then managed else if own != "" then own else "v1"
  }

  function SingleKey(env: Env): string {
    if env.signingKey.Some? then env.signingKey.value else "mlair-dev-manifest-signing-key"
  }

  function SplitOn(s: string, separator: char): (parts: seq<string>)
    ensures parts != []
  {
    if s == [] then [[]]
    else
      var rest := SplitOn(s[1..], separator);
      if s[0] == separator then [[]] + rest else [[s[0]] + rest[0]] + rest[1..]
  }

  function AllowedKeyIds(env: Env): set<string> {
    if env.blob.allowedKeyIds.Some? then
      set x | x in env.blob.allowedKeyIds.value && Strip(x.Str()) != "" :: Strip(x.Str())
    else if Strip(env.allowedKeyIds) == "" then {}
    else set x | x in SplitOn(Strip(env.allowedKeyIds), ',') && Strip(x) != "" :: Strip(x)
  }

  predicate Allowed(env: Env, kid: string) {
    AllowedKeyIds(env) == {} || kid in AllowedKeyIds(env)
  }

  /** A managed value may name an environment variable instead of holding the key. */
  function Deref(vars: map<string, string>, v: string): string {
    if "env:" <= v then Strip(GetEnv(vars, Strip(v[4..]))) else v
  }

  function ManagedValue(vars: map<string, string>, v: JsonVal): string {
    Deref(vars, Strip(v.Str()))
  }

  function PlainValue(v: JsonVal): string {
    Strip(v.Str())
  }

  /** Entries under their stripped names, blank ones left out, later ones winning. */
  function KeysetOf(entries: seq<Entry>, value: JsonVal -> string): Keyset {
    if entries == [] then map[]
    else
      var last := entries[|entries| - 1];
      var before := KeysetOf(entries[..|entries| - 1], value);
      if Strip(last.key) != "" && value(last.val) != "" then before[Strip(last.key) := value(last.val)] else before
  }

  function ManagedKeyset(env: Env): Keyset {
    if env.blob.hmacKeys.None? then map[] else KeysetOf(env.blob.hmacKeys.value, v => ManagedValue(env.vars, v))
  }

  function Get(entries: seq<Entry>, key: string): Option<JsonVal> {
    if entries == [] then None
    else if entries[|entries| - 1].key == key then Some(entries[|entries| - 1].val)
    else Get(entries[..|entries| - 1], key)
  }

  // ----- the executor -----

  function ManifestKeysOf(env: Env): Result<Keyset, SignError> {
    var active, managed := ActiveKeyId(env), ManagedKeyset(env);
    if managed != map[] then
      if env.strict && active !in managed then Err(ActiveKidMissing) else Ok(managed)
    else
      match env.keysJson
      case Absent => if env.strict then Err(KeysetMissing) else Ok(map[active := SingleKey(env)])
      case Malformed => Ok(map[active := SingleKey(env)])
      case NotAnObject => Ok(map[active := SingleKey(env)])
      case Object(entries) =>
        var keyset := KeysetOf(entries, PlainValue);
        if active in keyset then Ok(keyset)
        else if env.strict then Err(ActiveKidMissing)
        else Ok(keyset[active := SingleKey(env)])
  }

  /** The key that `_sign_manifest` signs with, under the active key id. */
  function SigningKey(env: Env): Result<string, SignError> {
    var active, keys := ActiveKeyId(env), ManifestKeysOf(env);
    if keys.Err? then Err(keys.error)
    else if !Allowed(env, active) then Err(KeyIdNotAllowed)
    else
      var own := if active in keys.value then keys.value[active] else "";
      var key := if own == "" && !env.strict then SingleKey(env) else own;
      if key == "" then Err(MissingHmacKey) else Ok(key)
  }

  function Sign(env: Env, hmac: Hmac, msg: string): Result<Signature, SignError> {
    var key := SigningKey(env);
    if key.Err? then Err(key.error) else Ok(Signature(ActiveKeyId(env), hmac(key.value, msg)))
  }

  // ----- the scheduler -----

  function VerifyKey(env: Env, kid: string): Option<string> {
    var active, managed := ActiveKeyId(env), ManagedKeyset(env);
    if managed != map[] then
      if env.strict && active !in managed then None
      else if kid in managed then Some(managed[kid]) else None
    else
      match env.keysJson
      case Absent => if !env.strict && (kid == active || kid == "v1") then Some(SingleKey(env)) else None
      case Malformed => if kid == active then Some(SingleKey(env)) else None
      case NotAnObject => if kid == active then Some(SingleKey(env)) else None
      case Object(entries) =>
        var val := Get(entries, kid);
        if val.None? || val.value.JNull? then
          if kid == active && !env.strict then Some(SingleKey(env)) else None
        else if Strip(val.value.Str()) == "" then None
        else Some(Strip(val.value.Str()))
  }

  predicate Verify(env: Env, hmac: Hmac, sig: Signature, msg: string) {
    && Allowed(env, sig.keyId)
    && VerifyKey(env, sig.keyId).Some?
    && VerifyKey(env, sig.keyId).value != ""
    && hmac(VerifyKey(env, sig.keyId).value, msg) == sig.text
  }

  // ----- the loops that fill the key sets -----

  lemma KeysetNone(entries: seq<Entry>, value: JsonVal -> string)
    ensures KeysetOf(entries[..0], value) == map[]
  {
    assert entries[..0] == [];
  }

  lemma KeysetNext(entries: seq<Entry>, i: nat, value: JsonVal -> string)
    requires i < |entries|
    ensures var before, e := KeysetOf(entries[..i], value), entries[i];
      KeysetOf(entries[..i + 1], value)
      == if Strip(e.key) != "" && value(e.val) != "" then before[Strip(e.key) := value(e.val)] else before
  {
    hide Strip;
    assert entries[..i + 1][..i] == entries[..i];
  }

  method FillManagedKeyset(env: Env) returns (out: Keyset)
    ensures out == ManagedKeyset(env)
  {
    hide Strip, KeysetOf;
    out := map[];
    if env.blob.hmacKeys.None? {
      return;
    }
    var raw: seq<Entry> := env.blob.hmacKeys.value;
    ghost var value := v => ManagedValue(env.vars, v);
    KeysetNone(raw, value);
    for i := 0 to |raw|
      invariant out == KeysetOf(raw[..i], value)
    {
      KeysetNext(raw, i, value);
      var ks, vs := Strip(raw[i].key), Strip(raw[i].val.Str());
      if "env:" <= vs {
        vs := Strip(GetEnv(env.vars, Strip(vs[4..])));
      }
      if ks != "" && vs != "" {
        out := out[ks := vs];
      }
    }
    assert raw[..|raw|] == raw;
  }

  method ManifestKeys(env: Env) returns (r: Result<(string, Keyset), SignError>)
    ensures r == if ManifestKeysOf(env).Err? then Err(ManifestKeysOf(env).error)
                 else Ok((ActiveKeyId(env), ManifestKeysOf(env).value))
  {
    var active, single := ActiveKeyId(env), SingleKey(env);
    var managed := FillManagedKeyset(env);
    if managed != map[] {
      if env.strict && active !in managed {
        return Err(ActiveKidMissing);
      }
      return Ok((active, managed));
    }
    match env.keysJson {
      case Absent =>
        if env.strict {
          return Err(KeysetMissing);
        }
        return Ok((active, map[active := single]));
      case Malformed => return Ok((active, map[active := single]));
      case NotAnObject => return Ok((active, map[active := single]));
      case Object(entries) =>
        var keyset := FillPlainKeyset(entries);
        if active !in keyset && !env.strict {
          keyset := keyset[active := single];
        }
        if env.strict && active !in keyset {
          return Err(ActiveKidMissing);
        }
        return Ok((active, keyset));
    }
  }

  method FillPlainKeyset(entries: seq<Entry>) returns (keyset: Keyset)
    ensures keyset == KeysetOf(entries, PlainValue)
  {
    hide Strip, KeysetOf;
    keyset := map[];
    KeysetNone(entries, PlainValue);
    for i := 0 to |entries|
      invariant keyset == KeysetOf(entries[..i], PlainValue)
    {
      KeysetNext(entries, i, PlainValue);
      var ks, vs := Strip(entries[i].key), Strip(entries[i].val.Str());
      if ks != "" && vs != "" {
        keyset := keyset[ks := vs];
      }
    }
    assert entries[..|entries|] == entries;
  }

  // ----- which entry wins -----

  /** The entry that gives `kid` its key: the last one with that stripped name and a value that is not blank. */
  ghost predicate IsWinner(entries: seq<Entry>, value: JsonVal -> string, kid: string, i: nat) {
    && i < |entries|
    && Strip(entries[i].key) == kid && value(entries[i].val) != ""
    && forall j :: i < j < |entries| ==> Strip(entries[j].key) != kid || value(entries[j].val) == ""
  }

  lemma {:induction false} WinnerIsInKeyset(entries: seq<Entry>, value: JsonVal -> string, kid: string, i: nat)
    requires kid != "" && IsWinner(entries, value, kid, i)
    ensures kid in KeysetOf(entries, value) && KeysetOf(entries, value)[kid] == value(entries[i].val)
    decreases |entries|
  {
    hide Strip;
    if i < |entries| - 1 {
      assert IsWinner(entries[..|entries| - 1], value, kid, i);
      WinnerIsInKeyset(entries[..|entries| - 1], value, kid, i);
    }
  }

  lemma {:induction false} KeysetHasWinner(entries: seq<Entry>, value: JsonVal -> string, kid: string) returns (i: nat)
    requires kid in KeysetOf(entries, value)
    ensures kid != "" && IsWinner(entries, value, kid, i)
    decreases |entries|
  {
    hide Strip;
    var last := entries[|entries| - 1];
    if kid != "" && Strip(last.key) == kid && value(last.val) != "" {
      i := |entries| - 1;
    } else {
      i := KeysetHasWinner(entries[..|entries| - 1], value, kid);
    }
  }

  lemma {:induction false} GetIs(entries: seq<Entry>, key: string, i: nat)
    requires DistinctKeys(entries) && i < |entries| && entries[i].key == key
    ensures Get(entries, key) == Some(entries[i].val)
    decreases |entries|
  {
    if i < |entries| - 1 {
      GetIs(entries[..|entries| - 1], key, i);
    }
  }

  lemma {:induction false} GetIndex(entries: seq<Entry>, key: string) returns (i: nat)
    requires Get(entries, key).Some?
    ensures i < |entries| && entries[i].key == key && entries[i].val == Get(entries, key).value
    decreases |entries|
  {
    if entries[|entries| - 1].key == key {
      i := |entries| - 1;
    } else {
      i := GetIndex(entries[..|entries| - 1], key);
    }
  }

  lemma {:induction false} SomeWinner(entries: seq<Entry>, value: JsonVal -> string, kid: string, i: nat) returns (w: nat)
    requires i < |entries| && Strip(entries[i].key) == kid && value(entries[i].val) != ""
    ensures IsWinner(entries, value, kid, w)
    decreases |entries| - i
  {
    hide Strip;
    if j :| i < j < |entries| && Strip(entries[j].key) == kid && value(entries[j].val) != "" {
      w := SomeWinner(entries, value, kid, j);
    } else {
      w := i;
    }
  }

  /** An entry under exactly the key id keeps the id in the key set unless its value is blank. */
  lemma PresentIsKept(entries: seq<Entry>, kid: string)
    requires kid != "" && Trimmed(kid) && Get(entries, kid).Some? && PlainValue(Get(entries, kid).value) != ""
    ensures kid in KeysetOf(entries, PlainValue)
  {
    var i := GetIndex(entries, kid);
    StripOfTrimmed(kid);
    hide Strip, Trimmed;
    var w := SomeWinner(entries, PlainValue, kid, i);
    WinnerIsInKeyset(entries, PlainValue, kid, w);
  }

  // ----- what the configuration says, written out -----

  /** The managed file names the active key id, else the environment does, else it is `v1`; a null in the file names `None`. */
  lemma ActiveKeyIdIs(env: Env)
    ensures var managed := match env.blob.activeKeyId case None => "" case Some(JNull) => "None" case Some(JText(text)) => text;
      var own := if env.activeKeyId.Some? then env.activeKeyId.value else "";
      ActiveKeyId(env) == if Strip(managed) != "" then Strip(managed) else if Strip(own) != "" then Strip(own) else "v1"
  {
    StripOfTrimmed("v1");
    StripOfTrimmed("");
  }

  /** A managed value of the form `env:NAME` is the stripped value of that variable, or blank; any other value is the key itself. */
  lemma ManagedValueIs(vars: map<string, string>, v: JsonVal, text: string, name: string)
    requires text == (if v.JNull? then "None" else v.text)
    ensures Strip(text) == "env:" + name ==> ManagedValue(vars, v) == if Strip(name) in vars then Strip(vars[Strip(name)]) else ""
    ensures !("env:" <= Strip(text)) ==> ManagedValue(vars, v) == Strip(text)
  {
    StripOfTrimmed("");
    hide Strip;
    assert Strip(text) == "env:" + name ==> Strip(text)[4..] == name;
  }

  /** The key of an id in the JSON key set: the value of the last entry under that name, up to blanks, whose value is not blank. */
  lemma JsonKeyIs(entries: seq<Entry>, kid: string, texts: seq<string>, i: nat)
    requires |texts| == |entries|
    requires forall j :: 0 <= j < |entries| ==> texts[j] == (if entries[j].val.JNull? then "None" else entries[j].val.text)
    requires kid != "" && i <= |entries|
    requires i < |entries| ==> Strip(entries[i].key) == kid && Strip(texts[i]) != ""
    requires forall j :: 0 <= j < |entries| && (i == |entries| || j > i) ==> Strip(entries[j].key) != kid || Strip(texts[j]) == ""
    ensures kid in KeysetOf(entries, PlainValue) <==> i < |entries|
    ensures i < |entries| ==> KeysetOf(entries, PlainValue)[kid] == Strip(texts[i])
  {
    hide Strip, KeysetOf;
    if i < |entries| {
      WinnerIsInKeyset(entries, PlainValue, kid, i);
    } else if kid in KeysetOf(entries, PlainValue) {
      var w := KeysetHasWinner(entries, PlainValue, kid);
    }
  }

  function Join(names: seq<string>): string
    requires names != []
  {
    if |names| == 1 then names[0] else names[0] + "," + Join(names[1..])
  }

  lemma {:induction false} SplitPart(part: string, rest: string)
    requires ',' !in part
    ensures SplitOn(part + "," + rest, ',') == [part] + SplitOn(rest, ',') && SplitOn(part, ',') == [part]
    decreases |part|
  {
    if part == "" {
      assert "" + "," + rest == [','] + rest && ([','] + rest)[1..] == rest;
    } else {
      assert (part + "," + rest)[1..] == part[1..] + "," + rest;
      SplitPart(part[1..], rest);
      assert part == [part[0]] + part[1..];
    }
  }

  lemma {:induction false} SplitJoin(names: seq<string>)
    requires names != [] && forall n :: n in names ==> ',' !in n
    ensures SplitOn(Join(names), ',') == names
    decreases |names|
  {
    hide SplitOn;
    if |names| == 1 {
      SplitPart(names[0], "");
    } else {
      SplitJoin(names[1..]);
      SplitPart(names[0], Join(names[1..]));
      assert names == [names[0]] + names[1..];
    }
  }

  /** `kid` is, up to blanks, one of the parts between commas. */
  ghost predicate IsListed(s: string, kid: string) {
    exists x :: x in SplitOn(s, ',') && Strip(x) == kid
  }

  lemma ListedBlankFirst(x: char, s: string, kid: string)
    requires IsSpace(x)
    ensures IsListed([x] + s, kid) <==> IsListed(s, kid)
  {
    var rest := SplitOn(s, ',');
    assert ([x] + s)[1..] == s;
    assert SplitOn([x] + s, ',') == [[x] + rest[0]] + rest[1..];
    StripBlankFirst(x, rest[0]);
    hide Strip, SplitOn;
    assert rest == [rest[0]] + rest[1..];
  }

  lemma SplitCons(c: char, s: string)
    ensures var rest := SplitOn(s, ',');
      SplitOn([c] + s, ',') == if c == ',' then [""] + rest else [[c] + rest[0]] + rest[1..]
    ensures SplitOn("", ',') == [""]
  {
    assert ([c] + s)[1..] == s;
  }

  lemma LastPart(parts: seq<string>, c: char, x: char)
    requires parts != []
    ensures var m := |parts| - 1; var longer := parts[..m] + [parts[m] + [x]];
      && [""] + longer == ([""] + parts)[..m + 1] + [([""] + parts)[m + 1] + [x]]
      && var joined := [[c] + parts[0]] + parts[1..];
         [[c] + longer[0]] + longer[1..] == joined[..m] + [joined[m] + [x]]
  {
    assert [c] + (parts[0] + [x]) == [c] + parts[0] + [x];
  }

  lemma {:induction false} SplitBlankLast(s: string, x: char)
    requires IsSpace(x)
    ensures var parts := SplitOn(s, ','); var n := |parts| - 1;
      SplitOn(s + [x], ',') == parts[..n] + [parts[n] + [x]]
    decreases |s|
  {
    hide SplitOn;
    if s == "" {
      SplitCons(x, "");
      assert "" + [x] == [x] + "";
    } else {
      SplitBlankLast(s[1..], x);
      assert s + [x] == [s[0]] + (s[1..] + [x]) && s == [s[0]] + s[1..];
      SplitCons(s[0], s[1..] + [x]);
      SplitCons(s[0], s[1..]);
      LastPart(SplitOn(s[1..], ','), s[0], x);
    }
  }

  lemma ListedBlankLast(s: string, x: char, kid: string)
    requires IsSpace(x)
    ensures IsListed(s + [x], kid) <==> IsListed(s, kid)
  {
    SplitBlankLast(s, x);
    var parts := SplitOn(s, ',');
    var n := |parts| - 1;
    StripBlankLast(parts[n], x);
    hide Strip, SplitOn;
    assert parts == parts[..n] + [parts[n]];
  }

  lemma {:induction false} ListedLeft(s: string, kid: string)
    ensures IsListed(StripLeft(s), kid) <==> IsListed(s, kid)
    decreases |s|
  {
    hide IsListed;
    if s != "" && IsSpace(s[0]) {
      ListedLeft(s[1..], kid);
      ListedBlankFirst(s[0], s[1..], kid);
      assert s == [s[0]] + s[1..];
    }
  }

  lemma {:induction false} ListedRight(s: string, kid: string)
    ensures IsListed(StripRight(s), kid) <==> IsListed(s, kid)
    decreases |s|
  {
    hide IsListed;
    if s != "" && IsSpace(s[|s| - 1]) {
      var n := |s| - 1;
      ListedRight(s[..n], kid);
      ListedBlankLast(s[..n], s[n], kid);
      assert s == s[..n] + [s[n]];
    }
  }

  lemma ListedStripped(s: string, kid: string)
    ensures IsListed(Strip(s), kid) <==> IsListed(s, kid)
    ensures !IsListed("", kid) || kid == ""
  {
    hide IsListed;
    ListedLeft(s, kid);
    ListedRight(StripLeft(s), kid);
    NothingListed(kid);
  }

  lemma NothingListed(kid: string)
    ensures !IsListed("", kid) || kid == ""
  {
    assert SplitOn("", ',') == [""];
    StripOfTrimmed("");
  }

  /** A list of names that are not blank allows exactly those; without any name every key id is allowed. */
  ghost predicate Lists(names: seq<string>, kid: string) {
    (forall n :: n in names ==> Strip(n) == "") || (kid != "" && exists n :: n in names && Strip(n) == kid)
  }

  lemma SetAllows(ids: set<string>, names: seq<string>, kid: string)
    requires forall k :: k in ids <==> k != "" && exists n :: n in names && Strip(n) == k
    ensures ids == {} || kid in ids <==> Lists(names, kid)
  {
    hide Strip;
    forall n | n in names && Strip(n) != "" ensures Strip(n) in ids {}
  }

  ghost predicate AreTexts(vals: seq<JsonVal>, texts: seq<string>) {
    |texts| == |vals| && forall i :: 0 <= i < |vals| ==> texts[i] == if vals[i].JNull? then "None" else vals[i].text
  }

  /** The key ids allowed by the managed file, or else by the comma-separated list of the environment. */
  lemma AllowedIff(env: Env, names: seq<string>, kid: string)
    requires env.blob.allowedKeyIds.Some? ==> AreTexts(env.blob.allowedKeyIds.value, names)
    requires env.blob.allowedKeyIds.None? ==> names != [] && (forall n :: n in names ==> ',' !in n) && env.allowedKeyIds == Join(names)
    ensures Allowed(env, kid) <==> Lists(names, kid)
  {
    hide Strip, SplitOn, Join, Lists;
    if env.blob.allowedKeyIds.Some? {
      ManagedIds(env, names);
    } else {
      ListedIds(env, names);
    }
    SetAllows(AllowedKeyIds(env), names, kid);
  }

  lemma ManagedIds(env: Env, names: seq<string>)
    requires env.blob.allowedKeyIds.Some? && AreTexts(env.blob.allowedKeyIds.value, names)
    ensures forall k :: k in AllowedKeyIds(env) <==> k != "" && exists n :: n in names && Strip(n) == k
  {
    hide Strip;
    var vals := env.blob.allowedKeyIds.value;
    forall x | x in vals ensures x.Str() in names {
      var i :| 0 <= i < |vals| && vals[i] == x;
      assert names[i] == x.Str();
    }
    forall n | n in names ensures exists x :: x in vals && x.Str() == n {
      var i :| 0 <= i < |vals| && names[i] == n;
      assert vals[i] in vals && vals[i].Str() == n;
    }
  }

  lemma ListedIds(env: Env, names: seq<string>)
    requires env.blob.allowedKeyIds.None? && names != [] && (forall n :: n in names ==> ',' !in n) && env.allowedKeyIds == Join(names)
    ensures forall k :: k in AllowedKeyIds(env) <==> k != "" && exists n :: n in names && Strip(n) == k
  {
    hide Strip, SplitOn, Join;
    SplitJoin(names);
    forall k ensures k in AllowedKeyIds(env) <==> k != "" && IsListed(env.allowedKeyIds, k) {
      ListedStripped(env.allowedKeyIds, k);
    }
  }

  /**
   What signing does: the errors and the conditions under which each is raised, and
   otherwise the active id's own key, or the single key if it has none.
  */
  lemma SigningOutcome(env: Env, single: string)
    requires single == if env.signingKey.Some? then env.signingKey.value else "mlair-dev-manifest-signing-key"
    ensures var active, managed := ActiveKeyId(env), ManagedKeyset(env);
      var own := if managed != map[] then managed else if env.keysJson.Object? then KeysetOf(env.keysJson.entries, PlainValue) else map[];
      var key := if active in own then own[active] else single;
      SigningKey(env) ==
        if env.strict && managed == map[] && env.keysJson.Absent? then Err(KeysetMissing)
        else if env.strict && (managed != map[] || env.keysJson.Object?) && active !in own then Err(ActiveKidMissing)
        else if !Allowed(env, active) then Err(KeyIdNotAllowed)
        else if key == "" then Err(MissingHmacKey)
        else Ok(key)
  {
    hide Strip, KeysetOf, ManagedKeyset, AllowedKeyIds, ActiveKeyId;
    if ActiveKeyId(env) in ManagedKeyset(env) {
      ManagedNotBlank(env, ActiveKeyId(env));
    } else if ManagedKeyset(env) == map[] && env.keysJson.Object? {
      KeysetByWinner(env.keysJson.entries, ActiveKeyId(env), "");
    }
  }

  // ----- when the two processes agree -----

  /**
   The condition on the configuration. With a managed key file the active id must be in
   it. With a JSON key set the entry under exactly the active id must be text that equals
   the winning value; where it is missing or null, the lifecycle must not be strict and
   nothing but the single key may win.
  */
  ghost predicate Coherent(env: Env) {
    var active := ActiveKeyId(env);
    if ManagedKeyset(env) != map[] then active in ManagedKeyset(env)
    else if env.keysJson.Object? then
      var entries: seq<Entry> := env.keysJson.entries;
      match Get(entries, active)
      case Some(JText(text)) => exists i: nat :: IsWinner(entries, PlainValue, active, i) && PlainValue(entries[i].val) == Strip(text)
      case _ => !env.strict && forall i: nat :: IsWinner(entries, PlainValue, active, i) ==> PlainValue(entries[i].val) == SingleKey(env)
    else true
  }

  lemma KeysetByWinner(entries: seq<Entry>, kid: string, v: string)
    requires kid != ""
    ensures kid in KeysetOf(entries, PlainValue) && KeysetOf(entries, PlainValue)[kid] == v
            <==> exists i: nat :: IsWinner(entries, PlainValue, kid, i) && PlainValue(entries[i].val) == v
    ensures kid in KeysetOf(entries, PlainValue) <==> exists i: nat :: IsWinner(entries, PlainValue, kid, i)
    ensures kid in KeysetOf(entries, PlainValue) ==> KeysetOf(entries, PlainValue)[kid] != ""
    ensures forall i: nat :: IsWinner(entries, PlainValue, kid, i) ==>
              kid in KeysetOf(entries, PlainValue) && KeysetOf(entries, PlainValue)[kid] == PlainValue(entries[i].val)
  {
    hide PlainValue, KeysetOf, Strip;
    if kid in KeysetOf(entries, PlainValue) {
      var i := KeysetHasWinner(entries, PlainValue, kid);
      WinnerIsInKeyset(entries, PlainValue, kid, i);
    }
    forall i: nat | IsWinner(entries, PlainValue, kid, i)
      ensures kid in KeysetOf(entries, PlainValue) && KeysetOf(entries, PlainValue)[kid] == PlainValue(entries[i].val)
    {
      WinnerIsInKeyset(entries, PlainValue, kid, i);
    }
  }

  lemma ManagedNotBlank(env: Env, kid: string)
    requires kid in ManagedKeyset(env)
    ensures ManagedKeyset(env)[kid] != ""
  {
    hide KeysetOf;
    var value := v => ManagedValue(env.vars, v);
    var i := KeysetHasWinner(env.blob.hmacKeys.value, value, kid);
    WinnerIsInKeyset(env.blob.hmacKeys.value, value, kid, i);
  }

  /** The scheduler finds the key the executor signed with exactly when the configuration is coherent. */
  lemma KeysAgreeIff(env: Env)
    requires SigningKey(env).Ok?
    ensures VerifyKey(env, ActiveKeyId(env)) == Some(SigningKey(env).value) <==> Coherent(env)
  {
    hide Strip, KeysetOf, ManagedKeyset, AllowedKeyIds, IsWinner, ActiveKeyId;
    if ActiveKeyId(env) in ManagedKeyset(env) {
      ManagedNotBlank(env, ActiveKeyId(env));
    } else if ManagedKeyset(env) == map[] && env.keysJson.Object? {
      JsonAgreesIff(env);
    }
  }

  lemma JsonAgreesIff(env: Env)
    requires SigningKey(env).Ok? && ManagedKeyset(env) == map[] && env.keysJson.Object?
    ensures VerifyKey(env, ActiveKeyId(env)) == Some(SigningKey(env).value) <==> Coherent(env)
  {
    hide Strip, KeysetOf, ManagedKeyset, AllowedKeyIds, IsWinner, ActiveKeyId;
    var entries: seq<Entry> := env.keysJson.entries;
    var active := ActiveKeyId(env);
    var val := Get(entries, active);
    if val.Some? && val.value.JText? {
      KeysetByWinner(entries, active, Strip(val.value.text));
      if Strip(val.value.text) != "" {
        PresentIsKept(entries, active);
      }
    } else {
      KeysetByWinner(entries, active, SingleKey(env));
    }
  }

  // ----- what that means for manifests -----

  /** Every manifest signed under a coherent configuration is accepted, whatever HMAC is; otherwise some HMAC is refused. */
  lemma AcceptedIff(env: Env, msg: string)
    requires SigningKey(env).Ok?
    ensures (forall hmac: Hmac :: Verify(env, hmac, Sign(env, hmac, msg).value, msg)) <==> Coherent(env)
  {
    hide VerifyKey, Coherent, ActiveKeyId, ManifestKeysOf;
    KeysAgreeIff(env);
    var keyItself := (key: string, m: string) => key;
    assert Verify(env, keyItself, Sign(env, keyItself, msg).value, msg) ==>
             VerifyKey(env, ActiveKeyId(env)) == Some(SigningKey(env).value);
  }

  /** All key names of the JSON key set are stripped and not empty, all values are text and not blank. */
  ghost predicate Clean(env: Env) {
    env.keysJson.Object? ==>
      forall e :: e in env.keysJson.entries ==> e.key != "" && Trimmed(e.key) && e.val.JText? && Strip(e.val.text) != ""
  }

  lemma CleanName(env: Env, i: nat)
    requires Clean(env) && env.keysJson.Object? && i < |env.keysJson.entries|
    ensures Strip(env.keysJson.entries[i].key) == env.keysJson.entries[i].key
    ensures PlainValue(env.keysJson.entries[i].val) != "" && env.keysJson.entries[i].val.JText?
  {
    var e: Entry := env.keysJson.entries[i];
    assert e in env.keysJson.entries;
    StripOfTrimmed(e.key);
  }

  lemma CleanJsonLookup(env: Env, kid: string)
    requires Clean(env) && env.keysJson.Object? && kid != ""
    ensures var keyset := KeysetOf(env.keysJson.entries, PlainValue); var val := Get(env.keysJson.entries, kid);
      && (kid in keyset <==> val.Some?)
      && (val.Some? ==> val.value.JText? && Strip(val.value.text) != "" && keyset[kid] == Strip(val.value.text))
  {
    hide Strip, Clean, KeysetOf;
    var entries: seq<Entry> := env.keysJson.entries;
    if kid in KeysetOf(entries, PlainValue) {
      var w := KeysetHasWinner(entries, PlainValue, kid);
      WinnerIsInKeyset(entries, PlainValue, kid, w);
      CleanName(env, w);
      GetIs(entries, kid, w);
    } else if Get(entries, kid).Some? {
      var i := GetIndex(entries, kid);
      CleanName(env, i);
      var w := SomeWinner(entries, PlainValue, kid, i);
      WinnerIsInKeyset(entries, PlainValue, kid, w);
    }
  }

  /** Under a strict lifecycle and clean names the scheduler resolves every id exactly as the executor's key set does. */
  lemma StrictLookup(env: Env, kid: string)
    requires env.strict && Clean(env) && ManifestKeysOf(env).Ok? && kid != ""
    ensures var keys := ManifestKeysOf(env).value;
      VerifyKey(env, kid) == if kid in keys then Some(keys[kid]) else None
  {
    hide Strip, Clean, KeysetOf, ManagedKeyset, ActiveKeyId, Get;
    if env.keysJson.Object? {
      CleanJsonLookup(env, kid);
    }
  }

  /** With a strict lifecycle and clean names everything the executor signs is accepted. */
  lemma CleanIsAccepted(env: Env, hmac: Hmac, msg: string)
    requires env.strict && Clean(env) && Sign(env, hmac, msg).Ok?
    ensures Verify(env, hmac, Sign(env, hmac, msg).value, msg)
  {
    hide Clean, KeysetOf, ManagedKeyset, ActiveKeyId, VerifyKey, ManifestKeysOf;
    StrictLookup(env, ActiveKeyId(env));
  }

  /**
   The condition on any later configuration: where it looks a key id up, and that it finds
   this key there. A JSON entry counts under exactly the id; where the id has no entry or a
   null one, the single key stands in for the active id unless the lifecycle is strict.
  */
  ghost predicate KeepsKey(env: Env, kid: string, key: string) {
    var active, managed := ActiveKeyId(env), ManagedKeyset(env);
    if managed != map[] then (env.strict ==> active in managed) && kid in managed && managed[kid] == key
    else
      match env.keysJson
      case Absent => !env.strict && kid in {active, "v1"} && SingleKey(env) == key
      case Malformed => kid == active && SingleKey(env) == key
      case NotAnObject => kid == active && SingleKey(env) == key
      case Object(entries) =>
        || (exists e :: e in entries && e.key == kid && e.val.JText? && Strip(e.val.text) == key)
        || (!env.strict && kid == active && SingleKey(env) == key && forall e :: e in entries && e.key == kid ==> e.val.JNull?)
  }

  lemma LookupIs(entries: Entries, kid: string)
    ensures forall e :: e in entries && e.key == kid ==> Get(entries, kid) == Some(e.val)
    ensures Get(entries, kid).Some? ==> exists e :: e in entries && e.key == kid && e.val == Get(entries, kid).value
  {
    forall e | e in entries && e.key == kid ensures Get(entries, kid) == Some(e.val) {
      var i :| 0 <= i < |entries| && entries[i] == e;
      GetIs(entries, kid, i);
    }
    if Get(entries, kid).Some? {
      var i := GetIndex(entries, kid);
      assert entries[i] in entries;
    }
  }

  lemma KeepsKeyIff(env: Env, kid: string, key: string)
    requires key != ""
    ensures VerifyKey(env, kid) == Some(key) <==> KeepsKey(env, kid, key)
  {
    hide Strip, KeysetOf, ManagedKeyset, ActiveKeyId, Get;
    if env.keysJson.Object? {
      LookupIs(env.keysJson.entries, kid);
    }
  }

  /** A manifest is accepted under any other configuration exactly when its id is allowed there and still names its key. */
  lemma AcceptedLaterIff(env: Env, later: Env, msg: string)
    requires SigningKey(env).Ok?
    ensures (forall hmac: Hmac :: Verify(later, hmac, Sign(env, hmac, msg).value, msg)) <==>
      Allowed(later, ActiveKeyId(env)) && KeepsKey(later, ActiveKeyId(env), SigningKey(env).value)
  {
    hide KeepsKey, ActiveKeyId, VerifyKey, AllowedKeyIds, SigningKey;
    SignsWithAKey(env);
    KeepsKeyIff(later, ActiveKeyId(env), SigningKey(env).value);
    var keyItself := (key: string, m: string) => key;
    assert Verify(later, keyItself, Sign(env, keyItself, msg).value, msg) ==>
             && Allowed(later, ActiveKeyId(env))
             && VerifyKey(later, ActiveKeyId(env)) == Some(SigningKey(env).value);
  }

  /**
   When the later configuration is strict and clean, such as after a rotation of the
   active key, this means that the id is still allowed and the new key set holds the same
   key under it.
  */
  lemma AcceptedAfterRotationIff(env: Env, later: Env, msg: string)
    requires SigningKey(env).Ok?
    requires later.strict && Clean(later) && ManifestKeysOf(later).Ok?
    ensures (forall hmac: Hmac :: Verify(later, hmac, Sign(env, hmac, msg).value, msg)) <==>
      && Allowed(later, ActiveKeyId(env))
      && ActiveKeyId(env) in ManifestKeysOf(later).value
      && ManifestKeysOf(later).value[ActiveKeyId(env)] == SigningKey(env).value
  {
    hide Clean, ActiveKeyId, VerifyKey, ManifestKeysOf, AllowedKeyIds, SigningKey, KeepsKey;
    StrictLookup(later, ActiveKeyId(env));
    SignsWithAKey(env);
    KeepsKeyIff(later, ActiveKeyId(env), SigningKey(env).value);
    AcceptedLaterIff(env, later, msg);
  }

  lemma SignsWithAKey(env: Env)
    requires SigningKey(env).Ok?
    ensures SigningKey(env).value != ""
  {
    hide ActiveKeyId, ManifestKeysOf, AllowedKeyIds;
  }

  // ----- configurations on which the two disagree -----

  function StrictJson(entries: Entries): Env {
    Env(Blob(None, None, None), None, None, Object(entries), "", true, map[])
  }

  lemma StripPadded()
    ensures Strip(" v1 ") == "v1" && Strip("v1") == "v1" && Strip("k") == "k" && Strip("None") == "None" && Strip("") == ""
  {
    assert StripLeft(" v1 ") == "v1 " by {
      assert " v1 "[1..] == "v1 ";
    }
    assert StripRight("v1 ") == "v1" by {
      assert "v1 "[..2] == "v1";
    }
  }

  lemma {:induction false} SingleEntry(name: string, val: JsonVal)
    requires Strip(name) == "v1" && PlainValue(val) != ""
    ensures var env := StrictJson([Entry(name, val)]); SigningKey(env) == Ok(PlainValue(val)) && ActiveKeyId(env) == "v1"
  {
    StripPadded();
    hide Strip;
    var entries := [Entry(name, val)];
    assert entries[..0] == [];
    assert KeysetOf(entries, PlainValue) == map["v1" := PlainValue(val)];
    assert AllowedKeyIds(StrictJson(entries)) == {};
  }

  /** A key name with surrounding spaces is signed under its stripped form, which the scheduler does not find. */
  lemma PaddedNameIsRejected(hmac: Hmac, msg: string)
    ensures var env := StrictJson([Entry(" v1 ", JText("k"))]);
      Sign(env, hmac, msg) == Ok(Signature("v1", hmac("k", msg))) && !Verify(env, hmac, Sign(env, hmac, msg).value, msg)
  {
    StripPadded();
    SingleEntry(" v1 ", JText("k"));
    hide SigningKey, ActiveKeyId, Strip;
    assert " v1 "[0] != "v1"[0];
    assert Get([Entry(" v1 ", JText("k"))][..0], "v1") == None;
  }

  /** A null key is signed with the text "None", which the scheduler never uses. */
  lemma NullKeyIsRejected(hmac: Hmac, msg: string)
    ensures var env := StrictJson([Entry("v1", JNull)]);
      Sign(env, hmac, msg) == Ok(Signature("v1", hmac("None", msg))) && !Verify(env, hmac, Sign(env, hmac, msg).value, msg)
  {
    StripPadded();
    SingleEntry("v1", JNull);
    hide SigningKey, ActiveKeyId, Strip;
  }
}
