/**
 * Message properties in an MQTT topic: appending a property map to the event topic, and
 * extracting the properties of a received topic again.
 */
module MqttProperties {
  import opened Lists

  datatype Entry = Entry(key: string, value: string)

  /** sysPropList: a token that begins like one of these is not an application property. */
  function SystemPrefixes(): (ps: seq<string>)
  {
    ["%24.exp", "%24.mid", "%24.uid", "%24.to", "%24.cid", "devices/", "iothub-operation", "iothub-ack"]
  }

  predicate IsSystem(token: string)
  {
    exists i :: 0 <= i < |SystemPrefixes()| && SystemPrefixes()[i] <= token
  }

  // ---------------------------------------------------------------------------
  // Appending
  // ---------------------------------------------------------------------------

  function Item(e: Entry): (s: string)
  {
    e.key + "=" + e.value
  }

  /** The items, separated by ampersands. */
  function Encode(es: seq<Entry>): (s: string)
  {
    if es == [] then ""
    else if |es| == 1 then Item(es[0])
    else Item(es[0]) + "&" + Encode(es[1..])
  }

  /** addPropertiesTouMqttMessage; `memory` says whether the k-th concatenation succeeds. */
  method AppendProperties(base: string, es: seq<Entry>, memory: nat -> bool) returns (r: Option<string>)
    ensures r == if forall k :: 0 <= k < |es| ==> memory(k) then Some(base + Encode(es)) else None
  {
    var s := base;
    var k := 0;
    while k < |es|
      invariant 0 <= k <= |es|
      invariant base + Encode(es) == s + Encode(es[k..])
      invariant forall j :: 0 <= j < k ==> memory(j)
    {
      if !memory(k) { return None; }
      var separator := if |es| - 1 == k then "" else "&";
      assert es[k..][0] == es[k] && es[k..][1..] == es[k + 1..];
      assert Encode(es[k..]) == Item(es[k]) + separator + Encode(es[k + 1..]);
      s := s + (Item(es[k]) + separator);
      k := k + 1;
    }
    assert es[k..] == [] && s + "" == s;
    r := Some(s);
  }

  // ---------------------------------------------------------------------------
  // Extracting
  // ---------------------------------------------------------------------------

  /** The tokenizer: it splits on the separator and skips empty tokens. */
  function Tokens(s: string): (ts: seq<string>)
    ensures |ts| <= |s|
    decreases |s|
  {
    if s == "" then []
    else if s[0] == '&' then Tokens(s[1..])
    else
      var e := IndexOf(s, '&', 0);
      [s[..e]] + Tokens(s[e..])
  }

  type Properties = map<string, string>

  /** One token: a system property is passed over, as is a token without an equals sign. */
  function Take(m: Properties, token: string): (m': Properties)
  {
    var e := IndexOf(token, '=', 0);
    if IsSystem(token) || e == |token| then m else m[token[..e] := token[e + 1..]]
  }

  function TakeAll(m: Properties, ts: seq<string>): (m': Properties)
    decreases |ts|
  {
    if ts == [] then m else TakeAll(Take(m, ts[0]), ts[1..])
  }

  lemma TokensSkip(s: string, i: nat)
    requires i < |s| && s[i] == '&'
    ensures Tokens(s[i..]) == Tokens(s[i + 1..])
  {
    assert s[i..][1..] == s[i + 1..];
  }

  lemma TokensHead(s: string, i: nat, e: nat)
    requires i < e <= |s| && (e < |s| ==> s[e] == '&') && forall j :: i <= j < e ==> s[j] != '&'
    ensures Tokens(s[i..]) == [s[i..e]] + Tokens(s[e..])
  {
    assert IndexOf(s[i..], '&', 0) == e - i;
    assert s[i..][..e - i] == s[i..e] && s[i..][e - i..] == s[e..];
  }

  /** STRING_TOKENIZER_get_next_token: skips separators and returns the next token, if any. */
  method NextToken(topic: string, at: nat) returns (token: Option<string>, next: nat)
    requires at <= |topic|
    ensures at <= next <= |topic|
    ensures token.None? ==> Tokens(topic[at..]) == []
    ensures token.Some? ==> token.value != "" && at < next
    ensures token.Some? ==> Tokens(topic[at..]) == [token.value] + Tokens(topic[next..])
  {
    assert Tokens("") == [];
    hide Tokens;
    next := at;
    while next < |topic| && topic[next] == '&'
      invariant at <= next <= |topic| && Tokens(topic[next..]) == Tokens(topic[at..])
    {
      TokensSkip(topic, next);
      next := next + 1;
    }
    if next == |topic| {
      assert topic[next..] == "";
      return None, next;
    }
    var start := next;
    while next < |topic| && topic[next] != '&'
      invariant start <= next <= |topic| && forall j :: start <= j < next ==> topic[j] != '&'
      invariant next == start ==> topic[next] != '&'
    {
      next := next + 1;
    }
    TokensHead(topic, start, next);
    token := Some(topic[start..next]);
  }

  method CheckSystem(token: string) returns (b: bool)
    ensures b == IsSystem(token)
  {
    b := false;
    var prefixes := SystemPrefixes();
    var k := 0;
    while k < |prefixes|
      invariant 0 <= k <= |prefixes|
      invariant b == exists i :: 0 <= i < k && prefixes[i] <= token
    {
      if prefixes[k] <= token { b := true; }
      k := k + 1;
    }
  }

  /** Taking this token needs memory for a copy of its name and of its value. */
  predicate NeedsMemory(token: string)
  {
    !IsSystem(token) && IndexOf(token, '=', 0) < |token|
  }

  /** The first token from position `i` on that needs memory and gets none, or the number of tokens. */
  function FirstLack(ts: seq<string>, memory: string -> bool, i: nat): (k: nat)
    requires i <= |ts|
    ensures i <= k <= |ts| && (k < |ts| ==> NeedsMemory(ts[k]) && !memory(ts[k]))
    ensures forall j :: i <= j < k ==> NeedsMemory(ts[j]) ==> memory(ts[j])
    decreases |ts| - i
  {
    if i == |ts| || (NeedsMemory(ts[i]) && !memory(ts[i])) then i else FirstLack(ts, memory, i + 1)
  }

  /** The inner loop: it looks for the first equals sign of a token and copies what is left and right of it. */
  method TakeToken(t: string, memory: string -> bool, before: Properties) returns (ok: bool, m: Properties)
    ensures ok == (NeedsMemory(t) ==> memory(t))
    ensures m == if ok then Take(before, t) else before
  {
    hide IsSystem;
    ok, m := true, before;
    var system := CheckSystem(t);
    if !system {
      var i := 0;
      while i < |t| && t[i] != '='
        invariant 0 <= i <= |t| && IndexOf(t, '=', i) == IndexOf(t, '=', 0)
      {
        i := i + 1;
      }
      if i < |t| {
        if !memory(t) { return false, m; }
        m := m[t[..i] := t[i + 1..]];
      }
    }
  }

  /**
   * extractMqttProperties; `memory` says whether the two copies for a token can be made.
   * It takes the tokens in order, up to the first one for which they cannot.
   */
  method ExtractProperties(topic: string, memory: string -> bool, before: Properties) returns (ok: bool, m: Properties)
    ensures
      var ts := Tokens(topic);
      m == TakeAll(before, ts[..FirstLack(ts, memory, 0)]) && (ok <==> FirstLack(ts, memory, 0) == |ts|)
  {
    hide NeedsMemory, Take, Tokens, TakeAll;
    ok, m := true, before;
    var at: nat := 0;
    ghost var ts, seen: seq<string> := Tokens(topic), [];
    assert topic[0..] == topic;
    TakeNone(before);
    while ok
      invariant at <= |topic| && |seen| <= |ts| && ts[..|seen|] == seen && m == TakeAll(before, seen)
      invariant ok ==> ts[|seen|..] == Tokens(topic[at..])
      invariant FirstLack(ts, memory, |seen|) == FirstLack(ts, memory, 0)
      invariant !ok ==> |seen| < |ts| && FirstLack(ts, memory, 0) == |seen|
      decreases ok, |topic| - at
    {
      var token, next := NextToken(topic, at);
      if token.None? { break; }
      var t := token.value;
      assert t == ts[|seen|..][0] == ts[|seen|] && ts[|seen| + 1..] == ts[|seen|..][1..];
      TakeOneMore(before, seen, t);
      ok, m := TakeToken(t, memory, m);
      if ok {
        assert ts[..|seen| + 1] == ts[..|seen|] + [t];
        seen, at := seen + [t], next;
      }
    }
  }

  lemma TakeNone(m: Properties)
    ensures TakeAll(m, []) == m
  {
  }

  lemma TakeOneMore(m: Properties, ts: seq<string>, t: string)
    ensures TakeAll(m, ts + [t]) == Take(TakeAll(m, ts), t)
  {
    hide Take;
    TakeAllConcat(m, ts, [t]);
    assert [t][1..] == [];
    assert TakeAll(TakeAll(m, ts), [t]) == TakeAll(Take(TakeAll(m, ts), t), []);
  }

  // ---------------------------------------------------------------------------
  // The round trip
  // ---------------------------------------------------------------------------

  lemma DropFront(a: string, b: string, i: nat)
    requires i <= |a|
    ensures (a + "&" + b)[i..] == a[i..] + "&" + b && (a + "&" + b)[..i] == a[..i]
  {
  }

  /** The first token of `a` is also the first token of what follows it after a separator. */
  lemma TokensShared(a: string, b: string, e: nat)
    requires 0 < e <= |a| && (e < |a| ==> a[e] == '&') && forall j :: 0 <= j < e ==> a[j] != '&'
    ensures Tokens(a) == [a[..e]] + Tokens(a[e..])
    ensures Tokens(a + "&" + b) == [a[..e]] + Tokens(a[e..] + "&" + b)
  {
    hide Tokens;
    var s := a + "&" + b;
    TokensHead(a, 0, e);
    assert s[|a|] == '&' && forall j :: 0 <= j < |a| ==> s[j] == a[j];
    TokensHead(s, 0, e);
    DropFront(a, b, e);
    assert a[0..] == a && s[0..] == s;
  }

  /** A separator divides the tokens. */
  lemma {:induction false} TokensConcat(a: string, b: string)
    ensures Tokens(a + "&" + b) == Tokens(a) + Tokens(b)
    decreases |a|
  {
    var s := a + "&" + b;
    if a == "" {
      assert s[0] == '&' && s[1..] == b && Tokens(a) == [];
    } else {
      hide Tokens;
      if a[0] == '&' {
        assert s[0] == '&' && a[0..] == a && s[0..] == s;
        TokensSkip(a, 0);
        TokensSkip(s, 0);
        DropFront(a, b, 1);
        TokensConcat(a[1..], b);
      } else {
        var e := IndexOf(a, '&', 0);
        TokensShared(a, b, e);
        TokensConcat(a[e..], b);
        Associative([a[..e]], Tokens(a[e..]), Tokens(b));
      }
    }
  }

  lemma TokensOne(t: string)
    requires t != "" && '&' !in t
    ensures Tokens(t) == [t]
  {
    var e := IndexOf(t, '&', 0);
    assert e == |t| && t[..e] == t && t[e..] == "";
  }

  /** Keys without '=' or '&', and values without '&'. */
  ghost predicate Plain(e: Entry)
  {
    '=' !in e.key && '&' !in e.key && '&' !in e.value
  }

  function Items(es: seq<Entry>): (ts: seq<string>)
  {
    if es == [] then [] else [Item(es[0])] + Items(es[1..])
  }

  lemma ItemPlain(e: Entry)
    requires Plain(e)
    ensures Item(e) != "" && '&' !in Item(e)
  {
  }

  lemma {:induction false} TokensEncode(es: seq<Entry>)
    requires forall i :: 0 <= i < |es| ==> Plain(es[i])
    ensures Tokens(Encode(es)) == Items(es)
  {
    if es != [] {
      hide Tokens, Plain;
      ItemPlain(es[0]);
      TokensOne(Item(es[0]));
      if |es| > 1 {
        TokensConcat(Item(es[0]), Encode(es[1..]));
        TokensEncode(es[1..]);
      }
    }
    assert es == [] ==> Tokens("") == [];
  }

  lemma {:induction false} TakeAllConcat(m: Properties, a: seq<string>, b: seq<string>)
    ensures TakeAll(m, a + b) == TakeAll(TakeAll(m, a), b)
    decreases |a|
  {
    if a == [] {
      assert a + b == b;
    } else {
      assert (a + b)[1..] == a[1..] + b;
      TakeAllConcat(Take(m, a[0]), a[1..], b);
    }
  }

  lemma {:induction false} TakeSystem(m: Properties, ts: seq<string>)
    requires forall i :: 0 <= i < |ts| ==> IsSystem(ts[i])
    ensures TakeAll(m, ts) == m
  {
    if ts != [] { TakeSystem(Take(m, ts[0]), ts[1..]); }
  }

  lemma PrefixOfKey(p: string, e: Entry)
    requires '=' !in p
    ensures p <= Item(e) <==> p <= e.key
  {
    assert Item(e)[|e.key|] == '=';
    assert p <= Item(e) && |p| <= |e.key| ==> forall i :: 0 <= i < |p| ==> p[i] == Item(e)[i] == e.key[i];
  }

  /** No system prefix contains '=', so the value has no say in what counts as a system property. */
  lemma SystemByKey(e: Entry)
    ensures IsSystem(Item(e)) <==> IsSystem(e.key)
  {
    forall i | 0 <= i < |SystemPrefixes()| ensures SystemPrefixes()[i] <= Item(e) <==> SystemPrefixes()[i] <= e.key {
      PrefixHasNoEquals(i);
      PrefixOfKey(SystemPrefixes()[i], e);
    }
  }

  lemma PrefixHasNoEquals(i: nat)
    requires i < |SystemPrefixes()|
    ensures '=' !in SystemPrefixes()[i]
  {
  }

  /** What a property map should become: its entries whose key has no system prefix. */
  function Collect(m: Properties, es: seq<Entry>): (m': Properties)
    decreases |es|
  {
    if es == [] then m
    else Collect(if IsSystem(es[0].key) then m else m[es[0].key := es[0].value], es[1..])
  }

  lemma TakeItem(m: Properties, e: Entry)
    requires '=' !in e.key
    ensures Take(m, Item(e)) == if IsSystem(e.key) then m else m[e.key := e.value]
  {
    hide IsSystem;
    SystemByKey(e);
    var t := Item(e);
    assert forall i :: 0 <= i < |e.key| ==> t[i] == e.key[i];
    assert t[|e.key|] == '=';
    assert IndexOf(t, '=', 0) == |e.key|;
    assert t[..|e.key|] == e.key && t[|e.key| + 1..] == e.value;
  }

  lemma {:induction false} TakeItems(m: Properties, es: seq<Entry>)
    requires forall i :: 0 <= i < |es| ==> '=' !in es[i].key
    ensures TakeAll(m, Items(es)) == Collect(m, es)
    decreases |es|
  {
    hide Take, IsSystem;
    if es != [] {
      TakeItem(m, es[0]);
      assert Items(es)[0] == Item(es[0]) && Items(es)[1..] == Items(es[1..]);
      TakeItems(if IsSystem(es[0].key) then m else m[es[0].key := es[0].value], es[1..]);
    }
  }

  /** A base topic that is empty or ends in '&', and whose tokens are all system properties. */
  ghost predicate SystemBase(base: string)
  {
    && (base == "" || base[|base| - 1] == '&')
    && forall i :: 0 <= i < |Tokens(base)| ==> IsSystem(Tokens(base)[i])
  }

  lemma BaseTokens(base: string, rest: string)
    requires base == "" || base[|base| - 1] == '&'
    ensures Tokens(base + rest) == Tokens(base) + Tokens(rest)
  {
    if base == "" {
      assert base + rest == rest;
    } else {
      var a := base[..|base| - 1];
      assert base + rest == a + "&" + rest && base == a + "&" + "";
      TokensConcat(a, rest);
      TokensConcat(a, "");
      assert Tokens(a) + [] == Tokens(a);
    }
  }

  /** Appending a property map and extracting it again gives back exactly its entries without a system prefix. */
  lemma RoundTrip(base: string, es: seq<Entry>, m: Properties)
    requires SystemBase(base) && forall i :: 0 <= i < |es| ==> Plain(es[i])
    ensures TakeAll(m, Tokens(base + Encode(es))) == Collect(m, es)
  {
    hide Tokens, Encode, TakeAll, Collect, IsSystem;
    BaseTokens(base, Encode(es));
    TokensEncode(es);
    TakeAllConcat(m, Tokens(base), Items(es));
    TakeSystem(m, Tokens(base));
    TakeItems(m, es);
  }

  /**
   * A base that is one system token without a final '&', as the event topic is, swallows
   * the first property; the others come back.
   */
  lemma UnterminatedBase(base: string, es: seq<Entry>, m: Properties)
    requires IsSystem(base) && '&' !in base && es != [] && forall i :: 0 <= i < |es| ==> Plain(es[i])
    ensures TakeAll(m, Tokens(base + Encode(es))) == Collect(m, es[1..])
  {
    var first, rest := base + Item(es[0]), es[1..];
    ItemPlain(es[0]);
    var i :| 0 <= i < |SystemPrefixes()| && SystemPrefixes()[i] <= base;
    assert SystemPrefixes()[i] <= first;
    TokensOne(first);
    TakeSystem(m, [first]);
    hide Tokens, IsSystem, TakeAll, Collect, Plain;
    if rest == [] {
      assert base + Encode(es) == first;
      TakeItems(m, rest);
      TakeNone(m);
      assert Items([]) == [];
    } else {
      assert base + Encode(es) == first + "&" + Encode(rest);
      TokensConcat(first, Encode(rest));
      TokensEncode(rest);
      TakeAllConcat(m, [first], Items(rest));
      PlainKeys(rest);
      TakeItems(m, rest);
    }
  }

  lemma PlainKeys(es: seq<Entry>)
    requires forall i :: 0 <= i < |es| ==> Plain(es[i])
    ensures forall i :: 0 <= i < |es| ==> '=' !in es[i].key
  {
  }

  /** For distinct keys, as in a map, the entries collected are these and no others. */
  lemma {:induction false} CollectExactly(m: Properties, es: seq<Entry>, key: string)
    requires forall i, j :: 0 <= i < j < |es| ==> es[i].key != es[j].key
    ensures forall i :: 0 <= i < |es| && es[i].key == key && !IsSystem(key) ==>
        key in Collect(m, es) && Collect(m, es)[key] == es[i].value
    ensures IsSystem(key) || (forall i :: 0 <= i < |es| ==> es[i].key != key) ==>
              (key in Collect(m, es) <==> key in m) && (key in m ==> Collect(m, es)[key] == m[key])
    decreases |es|
  {
    hide IsSystem;
    if es != [] {
      var m' := if IsSystem(es[0].key) then m else m[es[0].key := es[0].value];
      CollectExactly(m', es[1..], key);
      forall i | 0 <= i < |es| && es[i].key == key && !IsSystem(key)
        ensures key in Collect(m, es) && Collect(m, es)[key] == es[i].value
      {
        if i > 0 {
          assert es[1..][i - 1] == es[i];
        } else {
          assert forall j :: 0 <= j < |es[1..]| ==> es[1..][j].key != key;
        }
      }
    }
  }

  /** A single application property survives exactly when its key has no '='. */
  lemma EqualsInKey(e: Entry)
    requires '&' !in e.key && '&' !in e.value && !IsSystem(e.key)
    ensures TakeAll(map[], Tokens(Encode([e]))) == map[e.key := e.value] <==> '=' !in e.key
  {
    hide IsSystem;
    var t := Item(e);
    TokensOne(t);
    SystemByKey(e);
    assert t[|e.key|] == '=';
    assert TakeAll(map[], [t]) == Take(map[], t);
    if '=' !in e.key {
      TakeItem(map[], e);
    } else {
      var i :| 0 <= i < |e.key| && e.key[i] == '=';
      assert t[i] == '=';
      var f := IndexOf(t, '=', 0);
      assert f <= i && Take(map[], t) == map[t[..f] := t[f + 1..]];
      assert t[..f] in Take(map[], t) && t[..f] !in map[e.key := e.value];
    }
  }
}
