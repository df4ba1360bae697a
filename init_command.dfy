/**
 * The string helpers of the scaffolding command: `{{ key }}` template
 * substitution, grouping of a mapping object by one of its entries'
 * properties, the registry URL choice and the renaming of template file
 * names. The home directory, the environment and the set of existing
 * paths are parameters.
 */
module InitCommand {
  import opened Wrappers
  import opened Strings
  import opened JsValues
  import opened OrderedMaps
  import opened Environment

  // ---------------------------------------------------------------------
  // replaceTemplate: content.replace(/(\\)?{{ *(\w+) *}}/g, ...)
  // ---------------------------------------------------------------------

  /** The first position at or after `i` that is not a space. */
  function SkipSpaces(s: string, i: nat): (j: nat)
    requires i <= |s|
    ensures i <= j <= |s|
    ensures forall k :: i <= k < j ==> s[k] == ' '
    ensures j == |s| || s[j] != ' '
    decreases |s| - i
  {
    if i < |s| && s[i] == ' ' then SkipSpaces(s, i + 1) else i
  }

  /** The first position at or after `i` that is not a word character. */
  function SkipWord(s: string, i: nat): (j: nat)
    requires i <= |s|
    ensures i <= j <= |s|
    ensures forall k :: i <= k < j ==> IsWordChar(s[k])
    ensures j == |s| || !IsWordChar(s[j])
    decreases |s| - i
  {
    if i < |s| && IsWordChar(s[i]) then SkipWord(s, i + 1) else i
  }

  /** A match of the pattern: whether it had the backslash, the captured key, and where it ends. */
  datatype Placeholder = Placeholder(escaped: bool, key: string, end: nat)

  /** `{{ *(\w+) *}}` starting exactly at `start`: the key and the end of the match. */
  function Braces(s: string, start: nat): (m: Option<(string, nat)>)
    requires start <= |s|
    ensures m.Some? ==> start + 4 <= m.value.1 <= |s| && m.value.0 != ""
    ensures m.Some? ==> OccursAt(s, "{{", start) && OccursAt(s, "}}", m.value.1 - 2)
    ensures m.Some? ==> OccursAt(s, m.value.0, SkipSpaces(s, start + 2))
    ensures m.Some? ==> forall k :: start <= k < m.value.1 ==>
      s[k] == '{' || s[k] == '}' || s[k] == ' ' || IsWordChar(s[k])
  {
    if !OccursAt(s, "{{", start) then None
    else
      var a := SkipSpaces(s, start + 2);
      var b := SkipWord(s, a);
      var c := SkipSpaces(s, b);
      if b == a || !OccursAt(s, "}}", c) then None
      else Some((s[a..b], c + 2))
  }

  /**
   * The match of `(\\)?{{ *(\w+) *}}` starting exactly at `i`: with the
   * backslash when one is there and braces follow it; a backslash not
   * followed by braces leaves no match at `i`.
   */
  function PlaceholderAt(s: string, i: nat): (m: Option<Placeholder>)
    requires i <= |s|
    ensures m.Some? ==> i < m.value.end <= |s|
    ensures m.Some? && m.value.escaped ==> s[i] == '\\'
    ensures m.Some? && !m.value.escaped ==> forall k :: i <= k < m.value.end ==> s[k] != '\\'
  {
    if i < |s| && s[i] == '\\' then
      var b := Braces(s, i + 1);
      if b.Some? then Some(Placeholder(true, b.value.0, b.value.1)) else None
    else
      var b := Braces(s, i);
      if b.Some? then Some(Placeholder(false, b.value.0, b.value.1)) else None
  }

  /** The error thrown for an escaped placeholder: strings have no `subString` method. */
  const SubStringError := "block.subString is not a function"

  /** The global replace from position `i` on. */
  function ReplaceFrom(s: string, scope: map<string, string>, i: nat): (r: Result<string>)
    requires i <= |s|
    decreases |s| - i
  {
    if i == |s| then Success("")
    else
      var m := PlaceholderAt(s, i);
      if m.None? then
        var rest := ReplaceFrom(s, scope, i + 1);
        if rest.Failure? then rest else Success([s[i]] + rest.value)
      else if m.value.escaped then Failure(SubStringError)
      else
        var rest := ReplaceFrom(s, scope, m.value.end);
        var replacement := if m.value.key in scope then scope[m.value.key] else s[i..m.value.end];
        if rest.Failure? then rest else Success(replacement + rest.value)
  }

  /**
   * `replaceTemplate(content, scope)`: each placeholder whose key the
   * scope owns becomes the scope's value, any other is kept verbatim; an
   * escaped placeholder makes the call throw.
   */
  function ReplaceTemplate(content: string, scope: map<string, string>): Result<string> {
    ReplaceFrom(content, scope, 0)
  }

  /** An escaped placeholder starts at `j`. */
  predicate EscapedAt(s: string, j: nat) {
    j < |s| && s[j] == '\\' && Braces(s, j + 1).Some?
  }

  /** An escaped placeholder starts at `lo` or later. */
  predicate EscapedFrom(s: string, lo: nat) {
    exists j :: lo <= j < |s| && EscapedAt(s, j)
  }

  lemma {:induction false} ReplaceFromFails(s: string, scope: map<string, string>, i: nat)
    requires i <= |s|
    ensures ReplaceFrom(s, scope, i).Failure? <==> EscapedFrom(s, i)
    ensures ReplaceFrom(s, scope, i).Failure? ==> ReplaceFrom(s, scope, i).error == SubStringError
    decreases |s| - i
  {
    if i < |s| {
      var m := PlaceholderAt(s, i);
      if m.None? || !m.value.escaped {
        var next := if m.None? then i + 1 else m.value.end;
        ReplaceFromFails(s, scope, next);
        NoEscapeInside(s, i);
        EscapedFromSkip(s, i, next);
        FailureCarried(s, scope, i);
      } else {
        EscapedFails(s, scope, i);
      }
    }
  }

  /** An escaped placeholder at `i` makes the replace from `i` fail. */
  lemma EscapedFails(s: string, scope: map<string, string>, i: nat)
    requires i < |s|
    requires PlaceholderAt(s, i).Some? && PlaceholderAt(s, i).value.escaped
    ensures EscapedFrom(s, i) && ReplaceFrom(s, scope, i) == Failure(SubStringError)
  {
    assert EscapedAt(s, i);
  }

  /** No escaped placeholder starts at `i` or inside the unescaped match there. */
  lemma NoEscapeInside(s: string, i: nat)
    requires i < |s|
    requires PlaceholderAt(s, i).None? || !PlaceholderAt(s, i).value.escaped
    ensures var next := if PlaceholderAt(s, i).None? then i + 1 else PlaceholderAt(s, i).value.end;
      forall j :: i <= j < next ==> !EscapedAt(s, j)
  {
    var m := PlaceholderAt(s, i);
    if m.Some? {
      forall j | i <= j < m.value.end
        ensures !EscapedAt(s, j)
      {
        assert s[j] != '\\';
      }
    }
  }

  /** Where no escaped placeholder starts, the replace fails exactly as the rest of it does. */
  lemma FailureCarried(s: string, scope: map<string, string>, i: nat)
    requires i < |s|
    requires PlaceholderAt(s, i).None? || !PlaceholderAt(s, i).value.escaped
    ensures var next := if PlaceholderAt(s, i).None? then i + 1 else PlaceholderAt(s, i).value.end;
      && (ReplaceFrom(s, scope, i).Failure? <==> ReplaceFrom(s, scope, next).Failure?)
      && (ReplaceFrom(s, scope, i).Failure? ==> ReplaceFrom(s, scope, i) == ReplaceFrom(s, scope, next))
  {
  }

  /** Skipping positions where no escaped placeholder starts does not change `EscapedFrom`. */
  lemma EscapedFromSkip(s: string, lo: nat, hi: nat)
    requires lo <= hi <= |s|
    requires forall j :: lo <= j < hi ==> !EscapedAt(s, j)
    ensures EscapedFrom(s, lo) <==> EscapedFrom(s, hi)
  {
    if EscapedFrom(s, lo) {
      var j :| lo <= j < |s| && EscapedAt(s, j);
      assert hi <= j;
    }
  }

  /** The call throws exactly when the content holds an escaped placeholder. */
  lemma ReplaceTemplateFails(content: string, scope: map<string, string>)
    ensures ReplaceTemplate(content, scope).Failure? <==> EscapedFrom(content, 0)
    ensures ReplaceTemplate(content, scope).Failure? ==> ReplaceTemplate(content, scope).error == SubStringError
  {
    ReplaceFromFails(content, scope, 0);
  }

  lemma {:induction false} ReplaceFromPlain(s: string, scope: map<string, string>, i: nat)
    requires i <= |s|
    requires forall k :: i <= k < |s| ==> !OccursAt(s, "{{", k)
    ensures ReplaceFrom(s, scope, i) == Success(s[i..])
    decreases |s| - i
  {
    if i < |s| {
      assert PlaceholderAt(s, i).None? by {
        if i + 1 <= |s| {
          assert !OccursAt(s, "{{", i + 1) || i + 1 == |s|;
        }
      }
      ReplaceFromPlain(s, scope, i + 1);
      assert ReplaceFrom(s, scope, i) == Success([s[i]] + s[i + 1..]);
      assert s[i..] == [s[i]] + s[i + 1..];
    }
  }

  /** Content without "{{" comes back unchanged, whatever the scope. */
  lemma ReplaceTemplatePlain(content: string, scope: map<string, string>)
    requires !Contains(content, "{{")
    ensures ReplaceTemplate(content, scope) == Success(content)
  {
    ContainsMeans(content, "{{");
    ReplaceFromPlain(content, scope, 0);
  }

  lemma {:induction false} ReplaceFromUnknownKeys(s: string, scope: map<string, string>, i: nat)
    requires i <= |s|
    requires forall k :: k in scope ==> !Contains(s, k)
    ensures ReplaceFrom(s, scope, i).Success? ==> ReplaceFrom(s, scope, i).value == s[i..]
    decreases |s| - i
  {
    if i < |s| {
      var m := PlaceholderAt(s, i);
      if m.None? {
        ReplaceFromUnknownKeys(s, scope, i + 1);
        assert s[i..] == [s[i]] + s[i + 1..];
      } else if !m.value.escaped {
        ReplaceFromUnknownKeys(s, scope, m.value.end);
        UnknownKeyKept(s, scope, i);
      }
    }
  }

  /** One step of the above: a placeholder whose key occurs nowhere in the scope is copied. */
  lemma UnknownKeyKept(s: string, scope: map<string, string>, i: nat)
    requires i < |s|
    requires forall k :: k in scope ==> !Contains(s, k)
    requires PlaceholderAt(s, i).Some? && !PlaceholderAt(s, i).value.escaped
    requires var e := PlaceholderAt(s, i).value.end;
      ReplaceFrom(s, scope, e).Success? ==> ReplaceFrom(s, scope, e).value == s[e..]
    ensures ReplaceFrom(s, scope, i).Success? ==> ReplaceFrom(s, scope, i).value == s[i..]
  {
    var m := PlaceholderAt(s, i).value;
    assert OccursAt(s, m.key, SkipSpaces(s, i + 2));
    ContainsMeans(s, m.key);
    assert m.key !in scope;
    assert s[i..] == s[i..m.end] + s[m.end..];
  }

  /** A placeholder whose key the scope does not own is left verbatim. */
  lemma ReplaceTemplateKeepsUnknown(content: string, scope: map<string, string>)
    requires forall k :: k in scope ==> !Contains(content, k)
    ensures ReplaceTemplate(content, scope).Success? ==> ReplaceTemplate(content, scope).value == content
  {
    ReplaceFromUnknownKeys(content, scope, 0);
  }

  /** A lone placeholder, with any spaces inside its braces, is replaced by the scope's value. */
  lemma ReplaceTemplateLone(left: string, key: string, right: string, scope: map<string, string>)
    requires key != [] && forall k :: 0 <= k < |key| ==> IsWordChar(key[k])
    requires forall k :: 0 <= k < |left| ==> left[k] == ' '
    requires forall k :: 0 <= k < |right| ==> right[k] == ' '
    ensures var s := "{{" + left + key + right + "}}";
      ReplaceTemplate(s, scope) == Success(if key in scope then scope[key] else s)
  {
    var s := "{{" + left + key + right + "}}";
    LoneBraces(left, key, right);
    assert PlaceholderAt(s, 0) == Some(Placeholder(false, key, |s|));
    assert ReplaceFrom(s, scope, |s|) == Success("");
    assert s[0..|s|] == s;
    var replacement := if key in scope then scope[key] else s;
    assert replacement + "" == replacement;
    assert ReplaceFrom(s, scope, 0) == Success(replacement + "");
  }

  /** The braces of a lone placeholder match the whole text and capture the key. */
  lemma LoneBraces(left: string, key: string, right: string)
    requires key != [] && forall k :: 0 <= k < |key| ==> IsWordChar(key[k])
    requires forall k :: 0 <= k < |left| ==> left[k] == ' '
    requires forall k :: 0 <= k < |right| ==> right[k] == ' '
    ensures var s := "{{" + left + key + right + "}}";
      s[0] == '{' && Braces(s, 0) == Some((key, |s|))
  {
    var s := "{{" + left + key + right + "}}";
    var a := 2 + |left|;
    var b := a + |key|;
    var c := b + |right|;
    assert s[..2] == "{{" && s[c..] == "}}";
    assert s[2..a] == left && s[a..b] == key && s[b..c] == right;
    assert forall k :: 2 <= k < a ==> s[k] == s[2..a][k - 2];
    assert forall k :: a <= k < b ==> s[k] == s[a..b][k - a];
    assert forall k :: b <= k < c ==> s[k] == s[b..c][k - b];
    BracesSpan(s, a, b, c);
  }

  /** `{{`, spaces, a word, spaces and `}}` laid end to end form one match of the braces. */
  lemma BracesSpan(s: string, a: nat, b: nat, c: nat)
    requires 2 <= a < b <= c && c + 2 == |s|
    requires s[..2] == "{{" && s[c..] == "}}"
    requires forall k :: 2 <= k < a ==> s[k] == ' '
    requires forall k :: a <= k < b ==> IsWordChar(s[k])
    requires forall k :: b <= k < c ==> s[k] == ' '
    ensures Braces(s, 0) == Some((s[a..b], |s|))
  {
    assert s[c] == '}' && s[0] == '{';
    assert !IsWordChar(s[b]) by {
      if b < c {
        assert s[b] == ' ';
      }
    }
    SkipSpacesOver(s, 2, a);
    SkipWordOver(s, a, b);
    SkipSpacesOver(s, b, c);
  }

  lemma {:induction false} SkipSpacesOver(s: string, i: nat, j: nat)
    requires i <= j <= |s|
    requires forall k :: i <= k < j ==> s[k] == ' '
    requires j == |s| || s[j] != ' '
    ensures SkipSpaces(s, i) == j
    decreases j - i
  {
    if i < j {
      SkipSpacesOver(s, i + 1, j);
    }
  }

  lemma {:induction false} SkipWordOver(s: string, i: nat, j: nat)
    requires i <= j <= |s|
    requires forall k :: i <= k < j ==> IsWordChar(s[k])
    requires j == |s| || !IsWordChar(s[j])
    ensures SkipWord(s, i) == j
    decreases j - i
  {
    if i < j {
      SkipWordOver(s, i + 1, j);
    }
  }

  // ---------------------------------------------------------------------
  // groupBy(obj, key, otherKey)
  // ---------------------------------------------------------------------

  /** A canonical array index: decimal digits without a leading zero. */
  predicate IsIndexText(k: string) {
    k != "" && (forall c :: 0 <= c < |k| ==> IsDigit(k[c])) && (k == "0" || k[0] != '0')
  }

  /** Whether `for (j in v)` enumerates `k`: an own key of an object, an index of a string or array. */
  predicate Enumerates(v: JsValue, k: string) {
    match v
    case Obj(props) => k in props
    case Str(s) => IsIndexText(k) && DigitsValue(k) < |s|
    case List(items) => IsIndexText(k) && DigitsValue(k) < |items|
    case _ => false
  }

  /** `v[k]` for an enumerated key. */
  function Member(v: JsValue, k: string): JsValue
    requires Enumerates(v, k)
  {
    match v
    case Obj(props) => props[k]
    case Str(s) => Str([s[DigitsValue(k)]])
    case List(items) => items[DigitsValue(k)]
  }

  /** The group an entry belongs to: the text of its `key` property, or `otherKey`. */
  function GroupName(v: JsValue, key: string, otherKey: string): string {
    if Enumerates(v, key) then ToText(Member(v, key)) else otherKey
  }

  /** Entry `i` of `obj` sits, unchanged, in the group its `key` property names. */
  ghost predicate Placed(groups: map<string, map<string, JsValue>>, entries: map<string, JsValue>,
                         i: string, key: string, otherKey: string)
    requires i in entries
  {
    var g := GroupName(entries[i], key, otherKey);
    g in groups && i in groups[g] && groups[g][i] == entries[i]
  }

  /** Every grouped entry is an entry of `entries`, unchanged, in the group its `key` property names. */
  ghost predicate OnlyPlaced(groups: map<string, map<string, JsValue>>, entries: map<string, JsValue>,
                             key: string, otherKey: string)
  {
    && (forall g :: g in groups ==> groups[g] != map[])
    && (forall g, i :: g in groups && i in groups[g] ==>
          i in entries && groups[g][i] == entries[i] && g == GroupName(entries[i], key, otherKey))
  }

  /**
   * `groupBy(obj, key, otherKey)`: every entry of `obj` lands, unchanged
   * and under its own name, in the group named by its `key` property, or
   * in `otherKey` when it has none; nothing else is in any group, and no
   * group is empty.
   */
  method GroupBy(obj: OrderedMap<string, JsValue>, key: string, otherKey: string)
    returns (groups: map<string, map<string, JsValue>>)
    requires obj.Valid()
    ensures forall i :: i in obj.entries ==> Placed(groups, obj.entries, i, key, otherKey)
    ensures OnlyPlaced(groups, obj.entries, key, otherKey)
  {
    groups := map[];
    var n := 0;
    while n < |obj.keys|
      invariant 0 <= n <= |obj.keys|
      invariant forall m :: 0 <= m < n ==> obj.keys[m] in obj.entries && Placed(groups, obj.entries, obj.keys[m], key, otherKey)
      invariant OnlyPlaced(groups, obj.entries, key, otherKey)
    {
      assert obj.keys[n] in obj.entries.Keys;
      groups := AddToGroup(groups, obj.entries, obj.keys[n], key, otherKey);
      n := n + 1;
    }
    forall i | i in obj.entries
      ensures Placed(groups, obj.entries, i, key, otherKey)
    {
      assert i in obj.entries.Keys;
      var m :| 0 <= m < |obj.keys| && obj.keys[m] == i;
    }
  }

  /** One round of the loop: entry `i` joins the group its `key` property names. */
  method AddToGroup(groups: map<string, map<string, JsValue>>, entries: map<string, JsValue>,
                    i: string, key: string, otherKey: string)
    returns (groups': map<string, map<string, JsValue>>)
    requires i in entries && OnlyPlaced(groups, entries, key, otherKey)
    ensures OnlyPlaced(groups', entries, key, otherKey) && Placed(groups', entries, i, key, otherKey)
    ensures forall j :: j in entries && Placed(groups, entries, j, key, otherKey) ==> Placed(groups', entries, j, key, otherKey)
  {
    var item := entries[i];
    var group := GroupName(item, key, otherKey);
    var members := if group in groups then groups[group] else map[];
    groups' := groups[group := members[i := item]];
    PlaceKeeps(groups, entries, i, group, key, otherKey);
  }

  /** Adding one entry to its group keeps the others placed and adds it to the grouped ones. */
  lemma PlaceKeeps(groups: map<string, map<string, JsValue>>, entries: map<string, JsValue>,
                   i: string, group: string, key: string, otherKey: string)
    requires i in entries && group == GroupName(entries[i], key, otherKey)
    requires OnlyPlaced(groups, entries, key, otherKey)
    ensures var members := if group in groups then groups[group] else map[];
      var groups' := groups[group := members[i := entries[i]]];
      && OnlyPlaced(groups', entries, key, otherKey)
      && Placed(groups', entries, i, key, otherKey)
      && (forall j :: j in entries && Placed(groups, entries, j, key, otherKey) ==> Placed(groups', entries, j, key, otherKey))
  {
  }

  // ---------------------------------------------------------------------
  // getRegistryByType(key)
  // ---------------------------------------------------------------------

  const MirrorRegistry := "https://registry.npmmirror.com"
  const NpmRegistry := "https://registry.npmjs.org"

  /** `/^https?:/.test(key)`. */
  predicate IsHttpUrl(key: string) {
    StartsWith(key, "http:") || StartsWith(key, "https:")
  }

  /** Whether `~/.cnpmrc` or `~/.tnpmrc` exists. */
  predicate HasMirrorRc(home: string, existing: set<string>) {
    home + "/.cnpmrc" in existing || home + "/.tnpmrc" in existing
  }

  /**
   * `getRegistryByType(key)`: the two named registries; a URL argument
   * without one trailing slash; otherwise the configured registry
   * (`npm_registry`, then `npm_config_registry`, then npmjs), replaced by
   * the mirror when an rc file of a mirror client exists, without one
   * trailing slash.
   */
  function RegistryByType(key: string, env: Env, home: string, existing: set<string>): (url: string)
  {
    if key == "china" then MirrorRegistry
    else if key == "npm" then NpmRegistry
    else if IsHttpUrl(key) then StripTrailingSlash(key)
    else
      var configured :=
        if EnvSet(env, "npm_registry") then env["npm_registry"]
        else if EnvSet(env, "npm_config_registry") then env["npm_config_registry"]
        else NpmRegistry;
      StripTrailingSlash(if HasMirrorRc(home, existing) then MirrorRegistry else configured)
  }

  /**
   * The precedence of the registry choice: a named type, then a URL
   * argument, then an rc file of a mirror client, then the environment.
   */
  lemma RegistryPrecedence(key: string, env: Env, home: string, existing: set<string>)
    ensures key == "china" ==> RegistryByType(key, env, home, existing) == MirrorRegistry
    ensures key == "npm" ==> RegistryByType(key, env, home, existing) == NpmRegistry
    ensures key != "china" && key != "npm" && IsHttpUrl(key) ==>
      RegistryByType(key, env, home, existing) + (if key[|key| - 1] == '/' then "/" else "") == key
    ensures key != "china" && key != "npm" && !IsHttpUrl(key) && HasMirrorRc(home, existing) ==>
      RegistryByType(key, env, home, existing) == MirrorRegistry
    ensures key != "china" && key != "npm" && !IsHttpUrl(key) && !HasMirrorRc(home, existing) ==>
      RegistryByType(key, env, home, existing) ==
        StripTrailingSlash(if EnvSet(env, "npm_registry") then env["npm_registry"]
                           else if EnvSet(env, "npm_config_registry") then env["npm_config_registry"]
                           else NpmRegistry)
  {
    var mirror := MirrorRegistry;
    assert mirror[|mirror| - 1] == 'm';
  }

  /** A resolved URL without a trailing slash resolves to itself again. */
  lemma RegistryStable(url: string, env: Env, home: string, existing: set<string>)
    requires IsHttpUrl(url) && url[|url| - 1] != '/'
    ensures RegistryByType(url, env, home, existing) == url
  {
    assert url != "china" && url != "npm" by {
      assert url[0] == 'h';
    }
  }

  // ---------------------------------------------------------------------
  // fileMapping
  // ---------------------------------------------------------------------

  /** `this.fileMapping`: template basenames renamed when copied. */
  function FileMapping(): (m: map<string, string>)
    ensures forall b :: b in m ==> m[b] !in m
  {
    map[
      "gitignore" := ".gitignore",
      "_gitignore" := ".gitignore",
      "_.gitignore" := ".gitignore",
      "_package.json" := "package.json",
      "_.eslintrc" := ".eslintrc",
      "_.eslintignore" := ".eslintignore",
      "_.npmignore" := ".npmignore"]
  }

  /** `this.fileMapping[basename] || basename`. */
  function TargetName(basename: string): (name: string)
    ensures basename in FileMapping() ==> name == FileMapping()[basename]
    ensures basename !in FileMapping() ==> name == basename
  {
    var mapping := FileMapping();
    if basename in mapping then mapping[basename] else basename
  }

  /** Renaming is idempotent: no target name is itself renamed. */
  lemma TargetNameIdempotent(basename: string)
    ensures TargetName(TargetName(basename)) == TargetName(basename)
  {
  }
}
