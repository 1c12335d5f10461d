/** The environment of an agent subprocess: the layers a plan is compiled from (control/plan.go)
    and the list the supervisor hands to the process (mergeEnv in runtime/supervisor/manager.go). */
module Environment {
  import opened Control
  import opened Sequences

  type Env = map<string, string>

  /** Position of the first '=' at or after `i`, or the length. */
  function FirstEquals(kv: string, i: nat): (j: nat)
    requires i <= |kv|
    ensures i <= j <= |kv|
    ensures forall n :: i <= n < j ==> kv[n] != '='
    ensures j < |kv| ==> kv[j] == '='
    decreases |kv| - i
  {
    if i == |kv| || kv[i] == '=' then i else FirstEquals(kv, i + 1)
  }

  /** Adds one `key=value` entry; an entry without '=' is skipped. */
  function AddEntry(m: Env, kv: string): Env {
    var i := FirstEquals(kv, 0);
    if i < |kv| then m[kv[..i] := kv[i + 1..]] else m
  }

  /** The map a process sees when it reads the list: later entries win. */
  function ParseEnv(entries: seq<string>): Env {
    if entries == [] then map[] else AddEntry(ParseEnv(entries[..|entries| - 1]), entries[|entries| - 1])
  }

  function Overlay(base: Env, layers: seq<Env>): Env {
    if layers == [] then base else Overlay(base, layers[..|layers| - 1]) + layers[|layers| - 1]
  }

  function Entry(m: Env, k: string): string
    requires k in m
  {
    k + "=" + m[k]
  }

  /** `out` lists one entry per key of `m`, in the order `keys` happens to have. */
  ghost predicate Renders(m: Env, keys: seq<string>, out: seq<string>) {
    && |keys| == |out|
    && (forall i, j :: 0 <= i < j < |keys| ==> keys[i] != keys[j])
    && (forall k :: k in keys <==> k in m)
    && (forall i :: 0 <= i < |keys| ==> keys[i] in m && out[i] == Entry(m, keys[i]))
  }

  // ----- The loops -----

  /** `for k, v := range src { dst[k] = v }`, in any order. */
  method CopyInto(dst: Env, src: Env) returns (m: Env)
    ensures m == dst + src
  {
    m := dst;
    var left := src.Keys;
    while left != {}
      invariant left <= src.Keys
      invariant m == dst + (map k | k in src.Keys - left :: src[k])
      decreases left
    {
      var k :| k in left;
      m := m[k := src[k]];
      left := left - {k};
    }
    assert (map k | k in src.Keys - left :: src[k]) == src;
  }

  method ParseBase(base: seq<string>) returns (m: Env)
    ensures m == ParseEnv(base)
  {
    m := map[];
    for n := 0 to |base|
      invariant m == ParseEnv(base[..n])
    {
      var kv := base[n];
      assert base[..n + 1][..n] == base[..n];
      ghost var before := m;
      var i := 0;
      while i < |kv|
        invariant 0 <= i <= |kv| && m == before
        invariant FirstEquals(kv, 0) == FirstEquals(kv, i)
      {
        if kv[i] == '=' {
          m := m[kv[..i] := kv[i + 1..]];
          break;
        }
        i := i + 1;
      }
    }
    assert base[..|base|] == base;
  }

  method MergeEnv(base: seq<string>, layers: seq<Env>) returns (out: seq<string>, ghost keys: seq<string>)
    ensures Renders(Overlay(ParseEnv(base), layers), keys, out)
  {
    var m := ParseBase(base);
    for n := 0 to |layers|
      invariant m == Overlay(ParseEnv(base), layers[..n])
    {
      assert layers[..n + 1][..n] == layers[..n];
      m := CopyInto(m, layers[n]);
    }
    assert layers[..|layers|] == layers;
    out, keys := RenderAll(m);
  }

  method RenderAll(m: Env) returns (out: seq<string>, ghost keys: seq<string>)
    ensures Renders(m, keys, out)
  {
    out, keys := [], [];
    var left := m.Keys;
    while left != {}
      invariant left <= m.Keys
      invariant |keys| == |out| && forall k :: k in keys <==> k in m && k !in left
      invariant forall i, j :: 0 <= i < j < |keys| ==> keys[i] != keys[j]
      invariant forall i :: 0 <= i < |keys| ==> keys[i] in m && out[i] == Entry(m, keys[i])
      decreases left
    {
      var k :| k in left;
      out, keys := out + [k + "=" + m[k]], keys + [k];
      left := left - {k};
    }
  }

  // ----- Reading the list back -----

  predicate Clean(k: string) {
    '=' !in k
  }

  lemma {:induction false} ParsedKeysClean(entries: seq<string>)
    ensures forall k :: k in ParseEnv(entries) ==> Clean(k)
  {
    if entries != [] {
      var init, kv := entries[..|entries| - 1], entries[|entries| - 1];
      ParsedKeysClean(init);
      var i := FirstEquals(kv, 0);
      assert Clean(kv[..i]);
    }
  }

  /** The process reads back the merged map if and only if no key contains '='. */
  lemma ReadBackExact(m: Env, keys: seq<string>, out: seq<string>)
    requires Renders(m, keys, out)
    ensures ParseEnv(out) == m <==> forall k :: k in m ==> Clean(k)
  {
    if forall k :: k in m ==> Clean(k) {
      CleanReadBack(m, keys, out);
    } else {
      ParsedKeysClean(out);
    }
  }

  lemma {:induction false} OverlayKeys(base: Env, layers: seq<Env>)
    ensures forall k :: k in Overlay(base, layers) <==> k in base || exists i :: 0 <= i < |layers| && k in layers[i]
  {
    if layers != [] {
      var n := |layers| - 1;
      OverlayKeys(base, layers[..n]);
      forall k ensures k in Overlay(base, layers) <==> k in base || exists i :: 0 <= i < |layers| && k in layers[i] {
        if i :| 0 <= i < |layers| && k in layers[i] {
          if i < n { assert k in layers[..n][i]; }
        }
        if k in Overlay(base, layers[..n]) && k !in base {
          var i :| 0 <= i < n && k in layers[..n][i];
          assert k in layers[i];
        }
      }
    }
  }

  /** For the whole merge the condition is about the layers alone: whatever the base list holds, the
      process reads the merged map exactly when no layer has a key that contains '='. */
  lemma MergeReadBackExact(base: seq<string>, layers: seq<Env>, keys: seq<string>, out: seq<string>)
    requires Renders(Overlay(ParseEnv(base), layers), keys, out)
    ensures ParseEnv(out) == Overlay(ParseEnv(base), layers)
      <==> forall i :: 0 <= i < |layers| ==> forall k :: k in layers[i] ==> Clean(k)
  {
    var m := Overlay(ParseEnv(base), layers);
    ReadBackExact(m, keys, out);
    ParsedKeysClean(base);
    OverlayKeys(ParseEnv(base), layers);
    if (forall k :: k in m ==> Clean(k)) {
      forall i | 0 <= i < |layers| ensures forall k :: k in layers[i] ==> Clean(k) {
        forall k | k in layers[i] ensures Clean(k) { assert k in m; }
      }
    }
  }

  lemma DropAt<T>(s: seq<T>, j: nat)
    requires j < |s|
    ensures multiset(s) == multiset(s[..j] + s[j + 1..]) + multiset{s[j]}
  {
    assert s == s[..j] + [s[j]] + s[j + 1..];
  }

  lemma DropMembers(keys: seq<string>, j: nat)
    requires j < |keys| && forall a, b :: 0 <= a < b < |keys| ==> keys[a] != keys[b]
    ensures var rest := keys[..j] + keys[j + 1..];
      && (forall k :: k in rest <==> k in keys && k != keys[j])
      && (forall a, b :: 0 <= a < b < |rest| ==> rest[a] != rest[b])
  {
    var rest := keys[..j] + keys[j + 1..];
    assert forall i :: 0 <= i < |rest| ==> rest[i] == keys[if i < j then i else i + 1];
    forall k | k in keys && k != keys[j] ensures k in rest {
      var i :| 0 <= i < |keys| && keys[i] == k;
      assert rest[if i < j then i else i - 1] == k;
    }
  }

  /** `m` without one of its keys, rendered by the list without its entry. */
  lemma DropKey(m: Env, keys: seq<string>, out: seq<string>, j: nat)
    requires Renders(m, keys, out) && j < |keys|
    ensures Renders(m - {keys[j]}, keys[..j] + keys[j + 1..], out[..j] + out[j + 1..])
  {
    var rest, less := keys[..j] + keys[j + 1..], out[..j] + out[j + 1..];
    DropMembers(keys, j);
    forall i | 0 <= i < |rest| ensures rest[i] in m && less[i] == Entry(m, rest[i]) {
      DropIndex(keys, j, i);
      DropIndex(out, j, i);
    }
    DropRenders(m, keys, rest, less, keys[j]);
  }

  lemma DropIndex<T>(s: seq<T>, j: nat, i: nat)
    requires j < |s| && i < |s| - 1
    ensures (s[..j] + s[j + 1..])[i] == s[if i < j then i else i + 1]
  {
  }

  lemma DropRenders(m: Env, keys: seq<string>, rest: seq<string>, out: seq<string>, k: string)
    requires |rest| == |out| && (forall x :: x in keys <==> x in m)
    requires forall x :: x in rest <==> x in keys && x != k
    requires forall i, j :: 0 <= i < j < |rest| ==> rest[i] != rest[j]
    requires forall i :: 0 <= i < |rest| ==> rest[i] in m && out[i] == Entry(m, rest[i])
    ensures Renders(m - {k}, rest, out)
  {
    forall i | 0 <= i < |rest| ensures rest[i] in m - {k} && out[i] == Entry(m - {k}, rest[i]) {
      assert rest[i] in rest;
    }
  }

  /** The list has exactly one entry per key. */
  lemma {:induction false} OneEntryPerKey(m: Env, keys: seq<string>, out: seq<string>)
    requires Renders(m, keys, out)
    ensures |out| == |m.Keys|
    decreases |keys|
  {
    if keys == [] {
      assert m.Keys == {};
    } else {
      var k := keys[0];
      DropKey(m, keys, out, 0);
      OneEntryPerKey(m - {k}, keys[..0] + keys[1..], out[..0] + out[1..]);
      assert (m - {k}).Keys == m.Keys - {k} && k in m.Keys;
    }
  }

  /** Map iteration order only permutes the list: any two renderings have the same entries. */
  lemma {:induction false} OrderIrrelevant(m: Env, k1: seq<string>, o1: seq<string>, k2: seq<string>, o2: seq<string>)
    requires Renders(m, k1, o1) && Renders(m, k2, o2)
    ensures multiset(o1) == multiset(o2)
    decreases |k1|
  {
    if k1 == [] {
      OneEntryPerKey(m, k1, o1);
      OneEntryPerKey(m, k2, o2);
    } else {
      assert k1[0] in k1;
      var j :| 0 <= j < |k2| && k2[j] == k1[0];
      DropKey(m, k1, o1, 0);
      DropKey(m, k2, o2, j);
      OrderIrrelevant(m - {k1[0]}, k1[..0] + k1[1..], o1[..0] + o1[1..], k2[..j] + k2[j + 1..], o2[..j] + o2[j + 1..]);
      DropAt(o1, 0);
      DropAt(o2, j);
    }
  }

  /** What a reader takes for the name: the part before the first '='. */
  function Name(k: string): string {
    k[..FirstEquals(k, 0)]
  }

  predicate IsEntry(kv: string) {
    FirstEquals(kv, 0) < |kv|
  }

  predicate Entries(list: seq<string>) {
    forall i :: 0 <= i < |list| ==> IsEntry(list[i])
  }

  function ValueOf(kv: string): string
    requires IsEntry(kv)
  {
    kv[FirstEquals(kv, 0) + 1..]
  }

  function Names(list: seq<string>): seq<string> {
    seq(|list|, i requires 0 <= i < |list| => Name(list[i]))
  }

  /** A value never changes the name an entry is read under. */
  lemma EntryName(k: string, v: string)
    ensures IsEntry(k + "=" + v) && Name(k + "=" + v) == Name(k)
  {
    var kv, i := k + "=" + v, FirstEquals(k, 0);
    assert kv[|k|] == '=' && forall n :: 0 <= n < |k| ==> kv[n] == k[n];
    assert kv[i] == '=' && forall n :: 0 <= n < i ==> kv[n] != '=';
    assert FirstEquals(kv, 0) == i;
    assert kv[..i] == k[..i];
  }

  lemma ParseOneMore(init: seq<string>, kv: string)
    requires IsEntry(kv)
    ensures ParseEnv(init + [kv]) == ParseEnv(init)[Name(kv) := ValueOf(kv)]
    ensures Names(init + [kv]) == Names(init) + [Name(kv)]
    ensures kv == Name(kv) + "=" + ValueOf(kv)
  {
    assert (init + [kv])[..|init|] == init;
  }

  lemma {:induction false} ParsedNames(list: seq<string>)
    requires Entries(list)
    ensures forall k :: k in ParseEnv(list) <==> k in Names(list)
    ensures |ParseEnv(list).Keys| <= |list|
  {
    if list != [] {
      var init, kv := list[..|list| - 1], list[|list| - 1];
      ParsedNames(init);
      ParseOneMore(init, kv);
      SplitLast(list);
      assert ParseEnv(list).Keys == ParseEnv(init).Keys + {Name(kv)};
    }
  }

  lemma {:induction false} RepeatedNameShrinks(list: seq<string>, i: nat, j: nat)
    requires Entries(list) && i < j < |list| && Name(list[i]) == Name(list[j])
    ensures |ParseEnv(list).Keys| < |list|
  {
    var n := |list| - 1;
    var init, kv := list[..n], list[n];
    ParsedNames(init);
    ParseOneMore(init, kv);
    SplitLast(list);
    assert ParseEnv(list).Keys == ParseEnv(init).Keys + {Name(kv)};
    if j == n {
      assert Name(kv) == Names(init)[i];
    } else {
      RepeatedNameShrinks(init, i, j);
    }
  }

  lemma RendersOneMore(m: Env, keys: seq<string>, out: seq<string>, k: string, v: string)
    requires Renders(m, keys, out) && k !in m
    ensures Renders(m[k := v], keys + [k], out + [k + "=" + v])
  {
  }

  /** A list without repeated names renders the map it is read as. */
  lemma {:induction false} ParsedRenders(list: seq<string>)
    requires Entries(list)
    requires forall i, j :: 0 <= i < j < |list| ==> Name(list[i]) != Name(list[j])
    ensures Renders(ParseEnv(list), Names(list), list)
  {
    if list != [] {
      var init, kv := list[..|list| - 1], list[|list| - 1];
      ParsedRenders(init);
      ParsedNames(init);
      ParseOneMore(init, kv);
      SplitLast(list);
      assert Name(kv) !in Names(init);
      RendersOneMore(ParseEnv(init), Names(init), init, Name(kv), ValueOf(kv));
    }
  }

  lemma RenderedNames(m: Env, keys: seq<string>, out: seq<string>)
    requires Renders(m, keys, out)
    ensures Entries(out) && forall i :: 0 <= i < |out| ==> Name(out[i]) == Name(keys[i])
  {
    forall i | 0 <= i < |out| ensures IsEntry(out[i]) && Name(out[i]) == Name(keys[i]) {
      EntryName(keys[i], m[keys[i]]);
    }
  }

  lemma CleanName(k: string)
    requires Clean(k)
    ensures Name(k) == k
  {
    assert FirstEquals(k, 0) == |k|;
  }

  lemma SameRendering(m: Env, n: Env, keys: seq<string>, out: seq<string>)
    requires Renders(m, keys, out) && Renders(n, keys, out)
    ensures m == n
  {
    forall k | k in m ensures k in n && m[k] == n[k] {
      var i :| 0 <= i < |keys| && keys[i] == k;
      assert out[i] == k + "=" + m[k] == k + "=" + n[k];
      assert (k + "=" + m[k])[|k| + 1..] == m[k] && (k + "=" + n[k])[|k| + 1..] == n[k];
    }
  }

  /** A list of clean keys is read as the map it renders. */
  lemma CleanReadBack(m: Env, keys: seq<string>, out: seq<string>)
    requires Renders(m, keys, out) && forall k :: k in m ==> Clean(k)
    ensures ParseEnv(out) == m
  {
    RenderedNames(m, keys, out);
    forall i | 0 <= i < |out| ensures Names(out)[i] == keys[i] {
      assert keys[i] in m;
      CleanName(keys[i]);
    }
    assert Names(out) == keys;
    ParsedRenders(out);
    SameRendering(ParseEnv(out), m, keys, out);
  }

  lemma RenderedTwice(m: Env, keys: seq<string>, out: seq<string>, a: string, b: string)
    requires Renders(m, keys, out) && a in m && b in m && a != b && Name(a) == Name(b)
    ensures |ParseEnv(out).Keys| < |out|
  {
    RenderedNames(m, keys, out);
    assert a in keys && b in keys;
    var i :| 0 <= i < |keys| && keys[i] == a;
    var j :| 0 <= j < |keys| && keys[j] == b;
    if i < j { RepeatedNameShrinks(out, i, j); } else { RepeatedNameShrinks(out, j, i); }
  }

  /** Merging a merged list again gives the same entries if and only if no two keys agree before
      their first '='; in particular when no key contains one. */
  lemma MergeAgainExact(m: Env, keys: seq<string>, out: seq<string>, keys2: seq<string>, out2: seq<string>)
    requires Renders(m, keys, out) && Renders(Overlay(ParseEnv(out), []), keys2, out2)
    ensures multiset(out2) == multiset(out) <==> forall a, b :: a in m && b in m && a != b ==> Name(a) != Name(b)
  {
    if a, b :| a in m && b in m && a != b && Name(a) == Name(b) {
      RenderedTwice(m, keys, out, a, b);
      OneEntryPerKey(ParseEnv(out), keys2, out2);
      assert |multiset(out2)| == |out2| && |multiset(out)| == |out|;
    } else {
      RenderedNames(m, keys, out);
      ParsedRenders(out);
      OrderIrrelevant(ParseEnv(out), Names(out), out, keys2, out2);
    }
  }

  /** For instance a layer that sets both `A` and `A=B`: the process reads one variable, not two. */
  lemma EqualsKeyIsMisread()
    ensures var m := map["A" := "1", "A=B" := "2"];
      Renders(m, ["A", "A=B"], ["A=1", "A=B=2"]) && ParseEnv(["A=1", "A=B=2"]) == map["A" := "B=2"]
  {
    var m := map["A" := "1", "A=B" := "2"];
    assert Entry(m, "A") == "A=1" && Entry(m, "A=B") == "A=B=2";
    assert Renders(m, ["A", "A=B"], ["A=1", "A=B=2"]);
    ParseOneMore(["A=1"], "A=B=2");
    ParseOneMore([], "A=1");
    assert [] + ["A=1"] == ["A=1"] && ["A=1"] + ["A=B=2"] == ["A=1", "A=B=2"];
    assert "A=B=2"[1] == '=' && "A=1"[1] == '=';
    assert FirstEquals("A=B=2", 0) == 1 && FirstEquals("A=1", 0) == 1;
    assert Name("A=B=2") == "A" && Name("A=1") == "A" && ValueOf("A=B=2") == "B=2";
  }

  // ----- Which layer wins -----

  /** The value of `k` in the topmost layer that defines it. */
  function Highest(stack: seq<Env>, k: string): Option<string> {
    if stack == [] then None
    else if k in stack[|stack| - 1] then Some(stack[|stack| - 1][k])
    else Highest(stack[..|stack| - 1], k)
  }

  function Get(m: Env, k: string): Option<string> {
    if k in m then Some(m[k]) else None
  }

  lemma {:induction false} OverlayIsHighest(base: Env, layers: seq<Env>, k: string)
    ensures Get(Overlay(base, layers), k) == Highest([base] + layers, k)
  {
    var stack := [base] + layers;
    if layers == [] {
      assert stack == [base] && stack[..0] == [];
    } else {
      OverlayIsHighest(base, layers[..|layers| - 1], k);
      assert stack[..|stack| - 1] == [base] + layers[..|layers| - 1];
    }
  }

  datatype LLMProfile = LLMProfile(
    provider: string, model: string, baseUrl: string, defaultEnv: Env, apiKeyEnvVar: string, apiKeyName: string)

  const PROVIDER := "ACP_LLM_PROVIDER"
  const MODEL := "ACP_LLM_MODEL"
  const BASE_URL := "ACP_LLM_BASE_URL"
  const API_KEY_ENV := "ACP_LLM_API_KEY_ENV"
  const API_KEY_REF := "ACP_LLM_API_KEY_REF"

  function OneUnlessEmpty(k: string, v: string): Env {
    if v != "" then map[k := v] else map[]
  }

  function ProviderEnv(p: Option<LLMProfile>): Env {
    match p
    case None => map[]
    case Some(l) => map[PROVIDER := l.provider, MODEL := l.model] + OneUnlessEmpty(BASE_URL, l.baseUrl)
  }

  function DefaultsEnv(p: Option<LLMProfile>): Env {
    match p
    case None => map[]
    case Some(l) => l.defaultEnv
  }

  function KeyRefEnv(p: Option<LLMProfile>): Env {
    match p
    case None => map[]
    case Some(l) => OneUnlessEmpty(API_KEY_ENV, l.apiKeyEnvVar) + OneUnlessEmpty(API_KEY_REF, l.apiKeyName)
  }

  /** What an LLM profile says about a variable: an API-key reference that is given, else its default, else
      provider, model and a base URL that is given. */
  function ProfileValue(l: LLMProfile, k: string): Option<string> {
    if k == "ACP_LLM_API_KEY_ENV" && l.apiKeyEnvVar != "" then Some(l.apiKeyEnvVar)
    else if k == "ACP_LLM_API_KEY_REF" && l.apiKeyName != "" then Some(l.apiKeyName)
    else if k in l.defaultEnv then Some(l.defaultEnv[k])
    else if k == "ACP_LLM_PROVIDER" then Some(l.provider)
    else if k == "ACP_LLM_MODEL" then Some(l.model)
    else if k == "ACP_LLM_BASE_URL" && l.baseUrl != "" then Some(l.baseUrl)
    else None
  }

  lemma ProfileExact(l: LLMProfile, k: string)
    ensures Get(ProviderEnv(Some(l)) + DefaultsEnv(Some(l)) + KeyRefEnv(Some(l)), k) == ProfileValue(l, k)
  {
  }

  lemma PlusAssoc(a: Env, b: Env, c: Env)
    ensures a + (b + c) == a + b + c
  {
  }

  /** `if v != "" { env[k] = v }` */
  method PutUnlessEmpty(env: Env, k: string, v: string) returns (r: Env)
    ensures r == env + OneUnlessEmpty(k, v)
  {
    r := env;
    if v != "" {
      r := r[k := v];
    }
  }

  /** `injectLLMProfileEnv` */
  method InjectLLMProfileEnv(p: Option<LLMProfile>) returns (env: Env)
    ensures env == ProviderEnv(p) + DefaultsEnv(p) + KeyRefEnv(p)
    ensures forall k :: Get(env, k) == if p.Some? then ProfileValue(p.value, k) else None
  {
    if p.None? {
      return map[];
    }
    var l := p.value;
    forall k ensures Get(ProviderEnv(p) + DefaultsEnv(p) + KeyRefEnv(p), k) == ProfileValue(l, k) {
      ProfileExact(l, k);
    }
    env := map[PROVIDER := l.provider, MODEL := l.model];
    env := PutUnlessEmpty(env, BASE_URL, l.baseUrl);
    env := CopyInto(env, l.defaultEnv);
    PlusAssoc(env, OneUnlessEmpty(API_KEY_ENV, l.apiKeyEnvVar), OneUnlessEmpty(API_KEY_REF, l.apiKeyName));
    env := PutUnlessEmpty(env, API_KEY_ENV, l.apiKeyEnvVar);
    env := PutUnlessEmpty(env, API_KEY_REF, l.apiKeyName);
  }

  /** The injected environment a compiled plan carries. */
  method InjectionEnv(agentDefaults: Env, session: Env, p: Option<LLMProfile>) returns (env: Env)
    ensures env == Injected(agentDefaults, session, p)
  {
    env := CopyInto(map[], agentDefaults);
    assert env == agentDefaults;
    env := CopyInto(env, session);
    var llm := InjectLLMProfileEnv(p);
    env := CopyInto(env, llm);
  }

  function Injected(agentDefaults: Env, session: Env, p: Option<LLMProfile>): Env {
    agentDefaults + session + (ProviderEnv(p) + DefaultsEnv(p) + KeyRefEnv(p))
  }

  /** The layers from lowest to highest. */
  function Stack(base: Env, profile: Env, bundle: Env, agentDefaults: Env, session: Env, p: Option<LLMProfile>)
    : seq<Env>
  {
    [base] + Layers(profile, bundle, agentDefaults, session, p)
  }

  function Layers(profile: Env, bundle: Env, agentDefaults: Env, session: Env, p: Option<LLMProfile>): seq<Env> {
    [profile, bundle, agentDefaults, session, ProviderEnv(p), DefaultsEnv(p), KeyRefEnv(p)]
  }

  /** Every variable of the subprocess comes from the highest layer that defines it, in the order
      base, container profile, bundle, agent defaults, session, LLM provider, LLM defaults, API-key references. */
  lemma HighestLayerWins(base: Env, profile: Env, bundle: Env, agentDefaults: Env, session: Env, p: Option<LLMProfile>,
    k: string)
    ensures Get(Overlay(base, [profile, bundle, Injected(agentDefaults, session, p)]), k)
         == Highest(Stack(base, profile, bundle, agentDefaults, session, p), k)
  {
    SameOverlay(base, profile, bundle, agentDefaults, session, p);
    OverlayIsHighest(base, Layers(profile, bundle, agentDefaults, session, p), k);
  }

  /** The same spelled out: what the LLM profile says, else the session's value, else the agent's default,
      else the bundle's, else the container profile's, else the inherited one. */
  lemma VariableComesFrom(base: Env, profile: Env, bundle: Env, agentDefaults: Env, session: Env,
    p: Option<LLMProfile>, k: string)
    ensures Get(Overlay(base, [profile, bundle, Injected(agentDefaults, session, p)]), k) ==
      if p.Some? && ProfileValue(p.value, k).Some? then ProfileValue(p.value, k)
      else if k in session then Some(session[k])
      else if k in agentDefaults then Some(agentDefaults[k])
      else if k in bundle then Some(bundle[k])
      else if k in profile then Some(profile[k])
      else Get(base, k)
  {
    OverlayThree(base, profile, bundle, Injected(agentDefaults, session, p));
    if p.Some? { ProfileExact(p.value, k); }
  }

  lemma SameGets(m: Env, n: Env)
    ensures m == n <==> forall k :: Get(m, k) == Get(n, k)
  {
    if forall k :: Get(m, k) == Get(n, k) {
      forall k ensures k in m <==> k in n { assert Get(m, k) == Get(n, k); }
      forall k | k in m ensures m[k] == n[k] { assert Get(m, k) == Get(n, k); }
    }
  }

  predicate CleanKeys(layers: seq<Env>) {
    forall i :: 0 <= i < |layers| ==> forall k :: k in layers[i] ==> Clean(k)
  }

  /** End to end: from the list `MergeEnv` makes of the inherited list, the container profile, the bundle
      and the plan's injection, the process reads for every name the value of the highest layer that
      defines it, if and only if no key of those three maps contains '='. */
  lemma ProcessReadsHighestLayer(base: seq<string>, profile: Env, bundle: Env, agentDefaults: Env, session: Env,
                                 p: Option<LLMProfile>, keys: seq<string>, out: seq<string>)
    requires Renders(Overlay(ParseEnv(base), [profile, bundle, Injected(agentDefaults, session, p)]), keys, out)
    ensures (forall k ::
        Get(ParseEnv(out), k) == Highest(Stack(ParseEnv(base), profile, bundle, agentDefaults, session, p), k))
      <==> CleanKeys([profile, bundle, Injected(agentDefaults, session, p)])
  {
    var layers := [profile, bundle, Injected(agentDefaults, session, p)];
    var stack := Stack(ParseEnv(base), profile, bundle, agentDefaults, session, p);
    forall k ensures Get(Overlay(ParseEnv(base), layers), k) == Highest(stack, k) {
      HighestLayerWins(ParseEnv(base), profile, bundle, agentDefaults, session, p, k);
    }
    ReadBackGets(base, layers, keys, out);
  }

  lemma ReadBackGets(base: seq<string>, layers: seq<Env>, keys: seq<string>, out: seq<string>)
    requires Renders(Overlay(ParseEnv(base), layers), keys, out)
    ensures (forall k :: Get(ParseEnv(out), k) == Get(Overlay(ParseEnv(base), layers), k)) <==> CleanKeys(layers)
  {
    SameGets(ParseEnv(out), Overlay(ParseEnv(base), layers));
    MergeReadBackExact(base, layers, keys, out);
  }

  /** The three maps the supervisor merges amount to the seven layers on top of the base. */
  lemma SameOverlay(base: Env, profile: Env, bundle: Env, agentDefaults: Env, session: Env, p: Option<LLMProfile>)
    ensures Overlay(base, [profile, bundle, Injected(agentDefaults, session, p)])
         == Overlay(base, Layers(profile, bundle, agentDefaults, session, p))
  {
    var a, b, c := ProviderEnv(p), DefaultsEnv(p), KeyRefEnv(p);
    OverlayThree(base, profile, bundle, Injected(agentDefaults, session, p));
    Regroup(base + profile + bundle, agentDefaults, session, a, b, c);
    OverlaySeven(base, [profile, bundle, agentDefaults, session, a, b, c]);
  }

  lemma OverlayThree(base: Env, a: Env, b: Env, c: Env)
    ensures Overlay(base, [a, b, c]) == base + a + b + c
  {
    var l := [a, b, c];
    assert l[..2] == [a, b] && [a, b][..1] == [a] && [a][..0] == [];
    assert Overlay(base, [a]) == base + a;
    assert Overlay(base, [a, b]) == base + a + b;
  }

  lemma Regroup(m: Env, d: Env, s: Env, a: Env, b: Env, c: Env)
    ensures m + (d + s + (a + b + c)) == m + d + s + a + b + c
  {
    PlusAssoc(m, d + s, a + b + c);
    PlusAssoc(m, d, s);
    PlusAssoc(m + d + s, a + b, c);
    PlusAssoc(m + d + s, a, b);
  }

  lemma OverlaySeven(base: Env, l: seq<Env>)
    requires |l| == 7
    ensures Overlay(base, l) == base + l[0] + l[1] + l[2] + l[3] + l[4] + l[5] + l[6]
  {
    assert l[..6][..5] == l[..5] && l[..5][..4] == l[..4] && l[..4][..3] == l[..3];
    assert l[..3] == [l[0], l[1], l[2]];
    OverlayThree(base, l[0], l[1], l[2]);
    assert Overlay(base, l[..4]) == Overlay(base, l[..3]) + l[3];
    assert Overlay(base, l[..5]) == Overlay(base, l[..4]) + l[4];
    assert Overlay(base, l[..6]) == Overlay(base, l[..5]) + l[5];
  }
}
