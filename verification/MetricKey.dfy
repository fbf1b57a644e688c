/** internal/observability/metrics/sink.go: one text key for a metric name and its labels. */
module MetricKey {
  import opened Sorting

  type Labels = map<string, string>

  /** Go compares strings by bytes, which for UTF-8 is by code points. */
  predicate TextLe(a: string, b: string) {
    a == "" || (b != "" && (a[0] < b[0] || (a[0] == b[0] && TextLe(a[1..], b[1..]))))
  }

  /** At i the texts differ for the first time, and a has the lesser character. */
  predicate LessAt(a: string, b: string, i: nat) {
    i < |a| && i < |b| && a[..i] == b[..i] && a[i] < b[i]
  }

  lemma LessAtNext(a: string, b: string, i: nat)
    requires a != "" && b != "" && a[0] == b[0]
    ensures LessAt(a, b, i + 1) <==> LessAt(a[1..], b[1..], i)
    ensures !LessAt(a, b, 0)
  {
    if i < |a| - 1 && i < |b| - 1 {
      assert a[..i + 1] == [a[0]] + a[1..][..i] && b[..i + 1] == [b[0]] + b[1..][..i];
    }
  }

  /** The first difference decides; without one, the shorter text comes first. */
  lemma {:induction false} TextLeIff(a: string, b: string)
    ensures TextLe(a, b) <==> a <= b || exists i: nat :: LessAt(a, b, i)
  {
    hide LessAt;
    if a != "" && b != "" {
      if a[0] == b[0] {
        TextLeIff(a[1..], b[1..]);
        assert a <= b <==> a[1..] <= b[1..] by { SamePrefix(a, b); }
        if i: nat :| LessAt(a[1..], b[1..], i) {
          LessAtNext(a, b, i);
        }
        if i: nat :| LessAt(a, b, i) {
          LessAtNext(a, b, 0);
          LessAtNext(a, b, i - 1);
        }
      } else {
        FirstDiffers(a, b);
      }
    } else {
      EmptyIsLeast(a, b);
    }
  }

  lemma EmptyIsLeast(a: string, b: string)
    requires a == "" || b == ""
    ensures a <= b <==> a == ""
    ensures !exists i: nat :: LessAt(a, b, i)
  {
  }

  lemma SamePrefix(a: string, b: string)
    requires a != "" && b != "" && a[0] == b[0]
    ensures a <= b <==> a[1..] <= b[1..]
  {
    assert a == [a[0]] + a[1..] && b == [b[0]] + b[1..];
  }

  lemma FirstDiffers(a: string, b: string)
    requires a != "" && b != "" && a[0] != b[0]
    ensures !(a <= b)
    ensures (exists i: nat :: LessAt(a, b, i)) <==> a[0] < b[0]
  {
    if a[0] < b[0] {
      assert LessAt(a, b, 0);
    }
    if i: nat :| LessAt(a, b, i) {
      assert i > 0 ==> a[..i][0] == b[..i][0];
    }
  }

  lemma {:induction false} TextLeTotal(a: string, b: string)
    ensures TextLe(a, b) || TextLe(b, a)
    ensures TextLe(a, b) && TextLe(b, a) ==> a == b
  {
    if a != "" && b != "" {
      TextLeTotal(a[1..], b[1..]);
      assert a == [a[0]] + a[1..] && b == [b[0]] + b[1..];
    }
  }

  lemma {:induction false} TextLeTransitive(a: string, b: string, c: string)
    requires TextLe(a, b) && TextLe(b, c)
    ensures TextLe(a, c)
  {
    if a != "" && b != "" && c != "" && a[0] == b[0] == c[0] {
      TextLeTransitive(a[1..], b[1..], c[1..]);
    }
  }

  lemma TextOrderIsTotal()
    ensures TotalOrder(TextLe)
  {
    forall a, b ensures TextLe(a, b) || TextLe(b, a)
      ensures TextLe(a, b) && TextLe(b, a) ==> a == b
    {
      TextLeTotal(a, b);
    }
    forall a, b, c | TextLe(a, b) && TextLe(b, c) ensures TextLe(a, c) {
      TextLeTransitive(a, b, c);
    }
  }

  /** keys lists the keys of the labels, each once, in order. */
  ghost predicate Lists(keys: seq<string>, labels: Labels) {
    Sorted(keys, TextLe) && multiset(keys) == multiset(labels.Keys)
  }

  /** The pairs as "k=v", separated by commas. */
  function Pairs(keys: seq<string>, labels: Labels): string
    requires forall k :: k in keys ==> k in labels
  {
    if keys == [] then ""
    else keys[0] + ("=" + (labels[keys[0]] + (if |keys| == 1 then "" else "," + Pairs(keys[1..], labels))))
  }

  function Render(name: string, keys: seq<string>, labels: Labels): string
    requires forall k :: k in keys ==> k in labels
  {
    if keys == [] then name else name + "{" + Pairs(keys, labels) + "}"
  }

  /** The key: the rendering of the labels in order, of which there is only one. */
  ghost predicate IsKey(name: string, labels: Labels, key: string) {
    exists keys :: Lists(keys, labels) && KeysOf(keys, labels) && key == Render(name, keys, labels)
  }

  predicate KeysOf(keys: seq<string>, labels: Labels) {
    forall k :: k in keys ==> k in labels
  }

  lemma ListsKeys(keys: seq<string>, labels: Labels)
    requires Lists(keys, labels)
    ensures KeysOf(keys, labels) && (forall k :: k in labels ==> k in keys) && (keys == [] <==> labels == map[])
  {
    forall k | k in keys ensures k in labels {
      assert k in multiset(keys);
    }
    forall k | k in labels ensures k in keys {
      assert k in multiset(keys);
    }
    if keys == [] {
      assert labels.Keys == {};
    }
  }

  /** Key is a function: whatever order the map was walked in, there is one result. */
  lemma KeyIsUnique(name: string, labels: Labels, key1: string, key2: string)
    requires IsKey(name, labels, key1) && IsKey(name, labels, key2)
    ensures key1 == key2
  {
    TextOrderIsTotal();
    var keys1 :| Lists(keys1, labels) && KeysOf(keys1, labels) && key1 == Render(name, keys1, labels);
    var keys2 :| Lists(keys2, labels) && KeysOf(keys2, labels) && key2 == Render(name, keys2, labels);
    SortedIsUnique(keys1, keys2, TextLe);
  }

  lemma {:induction false} PairsAppend(keys: seq<string>, k: string, labels: Labels)
    requires KeysOf(keys, labels) && k in labels
    ensures KeysOf(keys + [k], labels)
    ensures Pairs(keys + [k], labels) == Pairs(keys, labels) + (if keys == [] then "" else ",") + k + "=" + labels[k]
  {
    if keys != [] {
      PairsAppend(keys[1..], k, labels);
      assert (keys + [k])[1..] == keys[1..] + [k];
      if |keys| == 1 {
        assert (keys + [k])[1..] == [k];
      } else {
        Regroup(keys[0], labels[keys[0]], Pairs(keys[1..], labels), ",", k, labels[k]);
        hide Pairs;
      }
    }
  }

  lemma Regroup(a: string, b: string, c: string, comma: string, k: string, v: string)
    ensures a + ("=" + (b + (comma + (c + comma + k + "=" + v))))
         == a + ("=" + (b + (comma + c))) + comma + k + "=" + v
  {
  }

  /** Key: collects the keys in whatever order the map yields them, sorts them in place, and writes the pairs. */
  method Key(name: string, labels: Labels) returns (key: string)
    ensures IsKey(name, labels, key)
  {
    hide Pairs;
    if |labels| == 0 {
      assert Lists([], labels) && KeysOf([], labels);
      assert name == Render(name, [], labels);
      return name;
    }
    var keys := new string[|labels|];
    CollectKeys(labels, keys);
    TextOrderIsTotal();
    hide TotalOrder, TextLe;
    Sort(keys, TextLe);
    ListsKeys(keys[..], labels);
    var pairs := WritePairs(keys, labels);
    assert name + "{" + pairs + "}" == Render(name, keys[..], labels);
    return name + "{" + pairs + "}";
  }

  /** The loop over the sorted keys. */
  method WritePairs(keys: array<string>, labels: Labels) returns (text: string)
    requires KeysOf(keys[..], labels)
    ensures text == Pairs(keys[..], labels)
  {
    text := "";
    for i := 0 to keys.Length
      invariant KeysOf(keys[..i], labels) && text == Pairs(keys[..i], labels)
    {
      var k := keys[i];
      assert k in keys[..];
      PairsAppend(keys[..i], k, labels);
      assert keys[..i + 1] == keys[..i] + [k];
      if i > 0 {
        text := text + ",";
      }
      text := text + k;
      text := text + "=";
      text := text + labels[k];
    }
    assert keys[..keys.Length] == keys[..];
  }

  /** The range over the map. */
  method CollectKeys(labels: Labels, keys: array<string>)
    requires keys.Length == |labels|
    modifies keys
    ensures multiset(keys[..]) == multiset(labels.Keys)
  {
    var left := labels.Keys;
    var n := 0;
    while left != {}
      invariant left <= labels.Keys && n + |left| == keys.Length
      invariant multiset(keys[..n]) + multiset(left) == multiset(labels.Keys)
      decreases left
    {
      var k :| k in left;
      keys[n] := k;
      assert multiset(left) == multiset(left - {k}) + multiset{k};
      left := left - {k};
      n := n + 1;
    }
    assert keys[..n] == keys[..];
  }

  // ---------------------------------------------------------------------------------------------------------
  // When different metrics have different keys
  // ---------------------------------------------------------------------------------------------------------

  predicate CleanPair(k: string, v: string) {
    '=' !in k && ',' !in v
  }

  /** No brace in the name, no equals sign in a label's key, no comma in a label's value. */
  predicate Clean(name: string, labels: Labels) {
    '{' !in name && forall k :: k in labels ==> CleanPair(k, labels[k])
  }

  /** The index of the first occurrence of a character; the length when there is none. */
  function FirstIndex(s: string, c: char): nat {
    if s == "" || s[0] == c then 0 else 1 + FirstIndex(s[1..], c)
  }

  lemma {:induction false} FirstIndexAfter(a: string, b: string, c: char)
    requires c !in a && (b == "" || b[0] == c)
    ensures FirstIndex(a + b, c) == |a|
  {
    if a == "" {
      assert a + b == b;
    } else {
      FirstIndexAfter(a[1..], b, c);
      assert (a + b)[1..] == a[1..] + b;
    }
  }

  /** A text is cut before the first occurrence of a character in only one way. */
  lemma SameCut(a: string, b: string, a': string, b': string, c: char)
    requires c !in a && (b == "" || b[0] == c)
    requires c !in a' && (b' == "" || b'[0] == c)
    requires a + b == a' + b'
    ensures a == a' && b == b'
  {
    FirstIndexAfter(a, b, c);
    FirstIndexAfter(a', b', c);
    hide FirstIndex;
    assert a == (a + b)[..|a|] && a' == (a' + b')[..|a'|];
    assert b == (a + b)[|a|..] && b' == (a' + b')[|a'|..];
  }

  /** The rest of the pairs after the first, with its comma. */
  function Rest(keys: seq<string>, labels: Labels): string
    requires keys != [] && KeysOf(keys, labels)
  {
    if |keys| == 1 then "" else "," + Pairs(keys[1..], labels)
  }

  lemma FirstPair(keys: seq<string>, labels: Labels, keys': seq<string>, labels': Labels)
    requires keys != [] && keys' != [] && KeysOf(keys, labels) && KeysOf(keys', labels')
    requires CleanPair(keys[0], labels[keys[0]]) && CleanPair(keys'[0], labels'[keys'[0]])
    requires Pairs(keys, labels) == Pairs(keys', labels')
    ensures keys[0] == keys'[0] && labels[keys[0]] == labels'[keys'[0]] && Rest(keys, labels) == Rest(keys', labels')
  {
    PairsCut(keys, labels);
    PairsCut(keys', labels');
    hide Pairs;
    SamePair(keys[0], labels[keys[0]], Rest(keys, labels), keys'[0], labels'[keys'[0]], Rest(keys', labels'));
  }

  lemma PairsCut(keys: seq<string>, labels: Labels)
    requires keys != [] && KeysOf(keys, labels)
    ensures Pairs(keys, labels) == keys[0] + ("=" + (labels[keys[0]] + Rest(keys, labels)))
    ensures Rest(keys, labels) == "" || Rest(keys, labels)[0] == ','
  {
  }

  lemma SamePair(k: string, v: string, rest: string, k': string, v': string, rest': string)
    requires CleanPair(k, v) && (rest == "" || rest[0] == ',')
    requires CleanPair(k', v') && (rest' == "" || rest'[0] == ',')
    requires k + ("=" + (v + rest)) == k' + ("=" + (v' + rest'))
    ensures k == k' && v == v' && rest == rest'
  {
    SameCut(k, "=" + (v + rest), k', "=" + (v' + rest'), '=');
    assert v + rest == ("=" + (v + rest))[1..] && v' + rest' == ("=" + (v' + rest'))[1..];
    SameCut(v, rest, v', rest', ',');
  }

  lemma {:induction false} PairsAreReadable(keys: seq<string>, labels: Labels, keys': seq<string>, labels': Labels)
    requires keys != [] && keys' != [] && KeysOf(keys, labels) && KeysOf(keys', labels')
    requires forall k :: k in keys ==> CleanPair(k, labels[k])
    requires forall k :: k in keys' ==> CleanPair(k, labels'[k])
    requires Pairs(keys, labels) == Pairs(keys', labels')
    ensures keys == keys' && forall k :: k in keys ==> labels[k] == labels'[k]
  {
    FirstPair(keys, labels, keys', labels');
    if |keys| > 1 {
      assert Rest(keys, labels)[1..] == Pairs(keys[1..], labels);
      assert Rest(keys', labels')[1..] == Pairs(keys'[1..], labels');
      PairsAreReadable(keys[1..], labels, keys'[1..], labels');
      assert keys == [keys[0]] + keys[1..] && keys' == [keys'[0]] + keys'[1..];
    } else {
      assert keys == [keys[0]] && keys' == [keys'[0]];
    }
  }

  /** The key identifies the metric: equal keys of clean metrics come from equal names and equal labels. */
  lemma KeyIsInjective(name: string, labels: Labels, name': string, labels': Labels, key: string)
    requires Clean(name, labels) && Clean(name', labels')
    requires IsKey(name, labels, key) && IsKey(name', labels', key)
    ensures name == name' && labels == labels'
  {
    var keys :| Lists(keys, labels) && KeysOf(keys, labels) && key == Render(name, keys, labels);
    var keys' :| Lists(keys', labels') && KeysOf(keys', labels') && key == Render(name', keys', labels');
    hide Render, Clean, Lists;
    ListsKeys(keys, labels);
    ListsKeys(keys', labels');
    SameRendering(name, keys, labels, name', keys', labels');
  }

  lemma SameRendering(
      name: string, keys: seq<string>, labels: Labels, name': string, keys': seq<string>, labels': Labels)
    requires Clean(name, labels) && Clean(name', labels') && KeysOf(keys, labels) && KeysOf(keys', labels')
    requires Render(name, keys, labels) == Render(name', keys', labels')
    ensures name == name' && keys == keys' && forall k :: k in keys ==> labels[k] == labels'[k]
  {
    hide Pairs, Render;
    SameName(name, keys, labels, name', keys', labels');
    if keys != [] {
      PairsAreReadable(keys, labels, keys', labels');
    }
  }

  lemma OneLabel(name: string, k: string, v: string)
    ensures IsKey(name, map[k := v], name + "{" + k + "=" + v + "}")
  {
    var labels := map[k := v];
    assert labels.Keys == {k};
    assert Lists([k], labels) && KeysOf([k], labels);
    assert Pairs([k], labels) == k + "=" + v;
    assert Render(name, [k], labels) == name + "{" + k + "=" + v + "}";
  }

  /** None of the three conditions can be dropped: without it two metrics share a key. */
  lemma DirtyMetricsCollide()
    ensures IsKey("m{a=1}", map[], "m{a=1}") && IsKey("m", map["a" := "1"], "m{a=1}")
    ensures IsKey("m", map["a" := "b=1"], "m{a=b=1}") && IsKey("m", map["a=b" := "1"], "m{a=b=1}")
    ensures IsKey("m", map["a" := "1,b=2"], "m{a=1,b=2}") && IsKey("m", map["a" := "1", "b" := "2"], "m{a=1,b=2}")
  {
    hide IsKey;
    NoLabels("m{a=1}");
    OneLabel("m", "a", "1");
    assert "m" + "{" + "a" + "=" + "1" + "}" == "m{a=1}";
    OneLabel("m", "a", "b=1");
    assert "m" + "{" + "a" + "=" + "b=1" + "}" == "m{a=b=1}";
    OneLabel("m", "a=b", "1");
    assert "m" + "{" + "a=b" + "=" + "1" + "}" == "m{a=b=1}";
    OneLabel("m", "a", "1,b=2");
    assert "m" + "{" + "a" + "=" + "1,b=2" + "}" == "m{a=1,b=2}";
    TwoLabels();
  }

  lemma NoLabels(name: string)
    ensures IsKey(name, map[], name)
  {
    assert Lists([], map[]) && KeysOf([], map[]) && name == Render(name, [], map[]);
  }

  lemma TwoLabels()
    ensures IsKey("m", map["a" := "1", "b" := "2"], "m{a=1,b=2}")
  {
    var labels := map["a" := "1", "b" := "2"];
    var keys := ["a", "b"];
    assert labels.Keys == {"a", "b"};
    assert Lists(keys, labels) && KeysOf(keys, labels);
    assert keys[1..] == ["b"];
    assert Pairs(["b"], labels) == "b=2";
    assert Pairs(keys, labels) == "a=1,b=2";
    assert Render("m", keys, labels) == "m{a=1,b=2}";
  }

  // ---------------------------------------------------------------------------------------------------------
  // Exactly which metrics share their key with another
  // ---------------------------------------------------------------------------------------------------------

  function Count(s: string, c: char): nat {
    if s == "" then 0 else (if s[0] == c then 1 else 0) + Count(s[1..], c)
  }

  lemma {:induction false} CountAppend(a: string, b: string, c: char)
    ensures Count(a + b, c) == Count(a, c) + Count(b, c)
  {
    if a == "" {
      assert a + b == b;
    } else {
      CountAppend(a[1..], b, c);
      assert (a + b)[1..] == a[1..] + b;
    }
  }

  lemma {:induction false} CountNone(s: string, c: char)
    ensures Count(s, c) == 0 <==> c !in s
  {
    if s != "" {
      CountNone(s[1..], c);
    }
  }

  /** Every pair has its equals sign, and those of its key and value besides. */
  lemma CountFirst(keys: seq<string>, labels: Labels)
    requires keys != [] && KeysOf(keys, labels)
    ensures Count(Pairs(keys, labels), '=')
         == Count(keys[0], '=') + 1 + Count(labels[keys[0]], '=') + Count(Rest(keys, labels), '=')
    ensures |keys| > 1 ==> Count(Rest(keys, labels), '=') == Count(Pairs(keys[1..], labels), '=')
  {
    PairsCut(keys, labels);
    var v, rest := labels[keys[0]], Rest(keys, labels);
    hide Pairs, Rest;
    CountAppend(keys[0], "=" + (v + rest), '=');
    CountAppend("=", v + rest, '=');
    CountAppend(v, rest, '=');
    if |keys| > 1 {
      RestCut(keys, labels);
      CountAppend(",", Pairs(keys[1..], labels), '=');
    }
  }

  lemma RestCut(keys: seq<string>, labels: Labels)
    requires |keys| > 1 && KeysOf(keys, labels)
    ensures Rest(keys, labels) == "," + Pairs(keys[1..], labels)
  {
  }

  lemma OnePerPair(keys: seq<string>, labels: Labels)
    requires |keys| > 1 && KeysOf(keys, labels)
    ensures Count(Pairs(keys, labels), '=') >= 2
  {
    CountFirst(keys, labels);
    CountFirst(keys[1..], labels);
    hide Pairs, Rest;
  }

  /** One label with a single equals sign in all. */
  predicate Plain(labels: Labels) {
    |labels| == 1 && forall k :: k in labels ==> '=' !in k && '=' !in labels[k]
  }

  lemma PlainPairs(keys: seq<string>, labels: Labels, keys': seq<string>, labels': Labels)
    requires |keys| == 1 && keys' != [] && KeysOf(keys, labels) && KeysOf(keys', labels')
    requires '=' !in keys[0] && '=' !in labels[keys[0]] && Pairs(keys, labels) == Pairs(keys', labels')
    ensures keys == keys' && labels[keys[0]] == labels'[keys[0]]
  {
    var k, v := keys[0], labels[keys[0]];
    var k', v' := keys'[0], labels'[keys'[0]];
    CountFirst(keys, labels);
    CountNone(k, '=');
    CountNone(v, '=');
    CountFirst(keys', labels');
    if |keys'| > 1 {
      OnePerPair(keys', labels');
    }
    CountNone(k', '=');
    PairsCut(keys, labels);
    PairsCut(keys', labels');
    assert v + Rest(keys, labels) == v && v' + Rest(keys', labels') == v';
    hide Pairs, Count, FirstIndex;
    SameCut(k, "=" + v, k', "=" + v', '=');
    assert v == ("=" + v)[1..] && v' == ("=" + v')[1..];
    assert keys == [k] && keys' == [k'];
  }

  /** Names without a brace, and whether there are labels, can be read off any key. */
  lemma SameName(name: string, keys: seq<string>, labels: Labels, name': string, keys': seq<string>, labels': Labels)
    requires '{' !in name && '{' !in name' && KeysOf(keys, labels) && KeysOf(keys', labels')
    requires Render(name, keys, labels) == Render(name', keys', labels')
    ensures name == name' && (keys == [] <==> keys' == [])
    ensures keys != [] ==> Pairs(keys, labels) == Pairs(keys', labels')
  {
    hide Pairs, Render, Tail;
    RenderCut(name, keys, labels);
    RenderCut(name', keys', labels');
    SameCut(name, Tail(keys, labels), name', Tail(keys', labels'), '{');
  }

  /** What follows the name. */
  function Tail(keys: seq<string>, labels: Labels): string
    requires KeysOf(keys, labels)
  {
    if keys == [] then "" else "{" + Pairs(keys, labels) + "}"
  }

  lemma RenderCut(name: string, keys: seq<string>, labels: Labels)
    requires KeysOf(keys, labels)
    ensures Render(name, keys, labels) == name + Tail(keys, labels)
    ensures var tail := Tail(keys, labels);
            && (tail == "" <==> keys == []) && (tail == "" || tail[0] == '{')
            && (keys != [] ==> |tail| >= 2 && Pairs(keys, labels) == tail[1..|tail| - 1])
  {
    hide Pairs;
  }

  /** The key of a metric without labels, or with one plain label, is its own. */
  lemma PlainIsAlone(name: string, labels: Labels, name': string, labels': Labels, key: string)
    requires '{' !in name && '{' !in name' && (labels == map[] || Plain(labels))
    requires IsKey(name, labels, key) && IsKey(name', labels', key)
    ensures name == name' && labels == labels'
  {
    var keys :| Lists(keys, labels) && KeysOf(keys, labels) && key == Render(name, keys, labels);
    var keys' :| Lists(keys', labels') && KeysOf(keys', labels') && key == Render(name', keys', labels');
    ListsKeys(keys, labels);
    ListsKeys(keys', labels');
    ListsLength(keys, labels);
    SameName(name, keys, labels, name', keys', labels');
    if keys != [] {
      PlainPairs(keys, labels, keys', labels');
      SingleKey(keys, labels);
      SingleKey(keys', labels');
    }
    hide *;
  }

  lemma ListsLength(keys: seq<string>, labels: Labels)
    requires Lists(keys, labels)
    ensures |keys| == |labels|
  {
    assert |multiset(keys)| == |multiset(labels.Keys)|;
  }

  lemma {:induction false} Enumerate(s: set<string>) returns (keys: seq<string>)
    ensures multiset(keys) == multiset(s)
    decreases s
  {
    if s == {} {
      keys := [];
    } else {
      var k :| k in s;
      keys := Enumerate(s - {k});
      assert multiset(s) == multiset(s - {k}) + multiset{k};
      keys := keys + [k];
    }
  }

  /** There is a key for every metric. */
  lemma KeyExists(name: string, labels: Labels) returns (keys: seq<string>)
    ensures Lists(keys, labels) && KeysOf(keys, labels) && IsKey(name, labels, Render(name, keys, labels))
  {
    TextOrderIsTotal();
    keys := Enumerate(labels.Keys);
    InOrderIsSorted(keys, TextLe);
    InOrderKeeps(keys, TextLe);
    keys := InOrder(keys, TextLe);
    ListsKeys(keys, labels);
  }

  lemma CutAt(s: string, c: char) returns (a: string, b: string)
    requires c in s
    ensures s == a + [c] + b
  {
    var i :| 0 <= i < |s| && s[i] == c;
    a, b := s[..i], s[i + 1..];
  }

  /** One label with another equals sign can be cut there. */
  lemma SecondSign(name: string, k: string, v: string) returns (labels': Labels)
    requires '=' in k || '=' in v
    ensures labels' != map[k := v] && IsKey(name, labels', name + "{" + k + "=" + v + "}")
  {
    hide IsKey;
    if '=' in k {
      var a, b := CutAt(k, '=');
      OneLabel(name, a, b + "=" + v);
      labels' := map[a := b + "=" + v];
      assert a in labels' && a != k;
      assert a + "=" + (b + "=" + v) == k + "=" + v;
      Enclosed(name, a + "=" + (b + "=" + v), a, b + "=" + v);
    } else {
      var a, b := CutAt(v, '=');
      OneLabel(name, k + "=" + a, b);
      labels' := map[k + "=" + a := b];
      assert k + "=" + a in labels' && k + "=" + a != k;
      assert (k + "=" + a) + "=" + b == k + "=" + v;
      Enclosed(name, (k + "=" + a) + "=" + b, k + "=" + a, b);
    }
    Enclosed(name, k + "=" + v, k, v);
  }

  lemma Enclosed(name: string, pair: string, k: string, v: string)
    requires pair == k + "=" + v
    ensures name + "{" + k + "=" + v + "}" == name + "{" + pair + "}"
  {
    assert name + "{" + k + "=" + v == name + "{" + (k + "=" + v);
  }

  /** Any other metric shares its key with a metric of one label. */
  lemma Rival(name: string, labels: Labels) returns (labels': Labels, key: string)
    requires labels != map[] && !Plain(labels)
    ensures labels' != labels && IsKey(name, labels, key) && IsKey(name, labels', key)
  {
    var keys := KeyExists(name, labels);
    ListsKeys(keys, labels);
    ListsLength(keys, labels);
    key := Render(name, keys, labels);
    PairsCut(keys, labels);
    var k := keys[0];
    var v := labels[k];
    if |keys| > 1 {
      hide Lists, IsKey, Pairs, Rest;
      labels' := map[k := v + Rest(keys, labels)];
      assert |labels'| == 1;
      OneLabel(name, k, v + Rest(keys, labels));
      Enclosed(name, Pairs(keys, labels), k, v + Rest(keys, labels));
    } else {
      SingleKey(keys, labels);
      hide Lists, IsKey, Pairs, Rest;
      labels' := SecondSign(name, k, v);
      Enclosed(name, Pairs(keys, labels), k, v);
    }
  }

  lemma SingleKey(keys: seq<string>, labels: Labels)
    requires Lists(keys, labels) && KeysOf(keys, labels) && |keys| == 1
    ensures labels == map[keys[0] := labels[keys[0]]]
    ensures Pairs(keys, labels) == keys[0] + "=" + labels[keys[0]]
  {
    ListsKeys(keys, labels);
  }

  /**
   * Among names without a brace, a metric has its key for itself if and only if it has no labels, or exactly one, with
   * no equals sign in its key or value.
   */
  lemma AloneIff(name: string, labels: Labels)
    requires '{' !in name
    ensures (forall name', labels', key ::
               '{' !in name' && IsKey(name, labels, key) && IsKey(name', labels', key) ==>
                 name' == name && labels' == labels)
       <==> labels == map[] || Plain(labels)
  {
    hide IsKey, Plain;
    if labels == map[] || Plain(labels) {
      forall name', labels', key |
        '{' !in name' && IsKey(name, labels, key) && IsKey(name', labels', key)
        ensures name' == name && labels' == labels
      {
        PlainIsAlone(name, labels, name', labels', key);
      }
    } else {
      var labels', key := Rival(name, labels);
    }
  }
}
