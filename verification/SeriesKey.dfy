// The text under which a time series is filed: its name and its tags in sorted order.
module SeriesKey {
  import opened Prelude
  import opened Text

  // Order of strings by bytes -------------------------------------------------------------------

  predicate Less(a: string, b: string)
    decreases |b|
  {
    b != "" && (a == "" || a[0] < b[0] || (a[0] == b[0] && Less(a[1..], b[1..])))
  }

  // The strings agree up to some place, and there the first one ends or has the smaller byte.
  predicate Before(a: string, b: string, k: int) {
    0 <= k <= |a| && k < |b| && a[..k] == b[..k] && (k == |a| || a[k] < b[k])
  }

  lemma {:induction false} LessIsLexicographic(a: string, b: string)
    ensures Less(a, b) <==> exists k :: Before(a, b, k)
    decreases |b|
  {
    if a != "" && b != "" && a[0] == b[0] {
      LessIsLexicographic(a[1..], b[1..]);
      if k :| Before(a[1..], b[1..], k) {
        assert a[..k + 1] == [a[0]] + a[1..][..k] && b[..k + 1] == [b[0]] + b[1..][..k];
        assert Before(a, b, k + 1);
      }
      if k :| Before(a, b, k) {
        assert k > 0;
        assert a[1..][..k - 1] == a[..k][1..] && b[1..][..k - 1] == b[..k][1..];
        assert Before(a[1..], b[1..], k - 1);
      }
    } else {
      if Less(a, b) {
        assert Before(a, b, 0);
      }
      if k :| Before(a, b, k) {
        assert k > 0 ==> a[..k][0] == b[..k][0];
      }
    }
  }

  lemma {:induction false} LessTransitive(a: string, b: string, c: string)
    requires Less(a, b) && Less(b, c)
    ensures Less(a, c)
    decreases |c|
  {
    if a != "" && a[0] == b[0] == c[0] {
      LessTransitive(a[1..], b[1..], c[1..]);
    }
  }

  lemma {:induction false} LessTotal(a: string, b: string)
    ensures Less(a, b) || a == b || Less(b, a)
    ensures !(Less(a, b) && Less(b, a)) && !Less(a, a)
    decreases |b|
  {
    if a != "" && b != "" && a[0] == b[0] {
      LessTotal(a[1..], b[1..]);
      assert a == [a[0]] + a[1..] && b == [b[0]] + b[1..];
    }
    LessIrreflexive(a);
  }

  lemma {:induction false} LessIrreflexive(a: string)
    ensures !Less(a, a)
  {
    if a != "" {
      LessIrreflexive(a[1..]);
    }
  }

  predicate Sorted(s: seq<string>) {
    forall i, j :: 0 <= i < j < |s| ==> Less(s[i], s[j])
  }

  function Insert(x: string, s: seq<string>): seq<string> {
    if s == [] then [x]
    else if Less(x, s[0]) then [x] + s
    else if x == s[0] then s
    else [s[0]] + Insert(x, s[1..])
  }

  // sort.Strings on distinct strings.
  function SortStrings(s: seq<string>): seq<string> {
    if s == [] then [] else Insert(s[0], SortStrings(s[1..]))
  }

  lemma {:induction false} InsertSorted(x: string, s: seq<string>)
    requires Sorted(s)
    ensures Sorted(Insert(x, s))
    ensures forall y :: y in Insert(x, s) <==> y == x || y in s
    decreases |s|
  {
    hide Less;
    if s != [] {
      LessTotal(x, s[0]);
      if Less(x, s[0]) {
        ConsSorted(x, s);
      } else if x != s[0] {
        InsertSorted(x, s[1..]);
        InsertLater(x, s, Insert(x, s[1..]));
      }
    }
  }

  lemma InsertLater(x: string, s: seq<string>, t: seq<string>)
    requires s != [] && Sorted(s) && Less(s[0], x)
    requires Sorted(t) && forall y :: y in t <==> y == x || y in s[1..]
    ensures Sorted([s[0]] + t)
    ensures forall y :: y in [s[0]] + t <==> y == x || y in s
  {
    hide Less;
    assert s == [s[0]] + s[1..];
    assert x in t && t[0] in t;
    ConsSorted(s[0], t);
  }

  lemma ConsSorted(x: string, s: seq<string>)
    requires Sorted(s) && s != [] && Less(x, s[0])
    ensures Sorted([x] + s)
  {
    hide Less;
    forall j | 0 <= j < |s|
      ensures Less(x, s[j])
    {
      if j > 0 {
        LessTransitive(x, s[0], s[j]);
      }
    }
  }

  lemma {:induction false} SortSorts(s: seq<string>)
    ensures Sorted(SortStrings(s))
    ensures forall y :: y in SortStrings(s) <==> y in s
  {
    hide Less, Insert;
    if s != [] {
      SortSorts(s[1..]);
      InsertSorted(s[0], SortStrings(s[1..]));
      assert s == [s[0]] + s[1..];
    }
  }

  // A sorted list is determined by its members.
  lemma {:induction false} SortedUnique(a: seq<string>, b: seq<string>)
    requires Sorted(a) && Sorted(b)
    requires forall y :: y in a <==> y in b
    ensures a == b
    decreases |a|
  {
    hide Less;
    assert b != [] ==> b[0] in a;
    if a != [] {
      assert a[0] in b;
      LessTotal(a[0], b[0]);
      SameHead(a, b);
      var x, a', b' := a[0], a[1..], b[1..];
      assert a == [x] + a' && b == [x] + b';
      LessTotal(x, x);
      forall y
        ensures y in a' <==> y in b'
      {
        assert y in a' ==> y in a && Less(x, y);
        assert y in b' ==> y in b && Less(x, y);
      }
      SortedUnique(a', b');
    }
  }

  lemma SameHead(a: seq<string>, b: seq<string>)
    requires Sorted(a) && Sorted(b) && a != [] && b != [] && a[0] in b && b[0] in a
    ensures a[0] == b[0]
  {
    hide Less;
    var i :| 0 <= i < |a| && a[i] == b[0];
    var j :| 0 <= j < |b| && b[j] == a[0];
    assert i > 0 ==> Less(a[0], b[0]);
    assert j > 0 ==> Less(b[0], a[0]);
    LessTotal(a[0], b[0]);
  }

  // The key -------------------------------------------------------------------------------------

  ghost function SortedKeys(keys: set<string>): (r: seq<string>)
    ensures Sorted(r) && forall y :: y in r <==> y in keys
  {
    if keys == {} then []
    else
      var x :| x in keys;
      InsertSorted(x, SortedKeys(keys - {x}));
      Insert(x, SortedKeys(keys - {x}))
  }

  function Pair(k: string, v: string): string {
    k + "=" + v
  }

  function Render(keys: seq<string>, tags: map<string, string>): string
    requires forall k :: k in keys ==> k in tags
  {
    if keys == [] then "" else "|" + Pair(keys[0], tags[keys[0]]) + Render(keys[1..], tags)
  }

  ghost function KeyOf(name: string, tags: map<string, string>): string {
    name + Render(SortedKeys(tags.Keys), tags)
  }

  lemma {:induction false} RenderSnoc(keys: seq<string>, k: string, tags: map<string, string>)
    requires k in tags && forall x :: x in keys ==> x in tags
    ensures Render(keys + [k], tags) == Render(keys, tags) + "|" + Pair(k, tags[k])
  {
    hide Pair;
    if keys == [] {
      assert [] + [k] == [k];
    } else {
      RenderSnoc(keys[1..], k, tags);
      assert (keys + [k])[1..] == keys[1..] + [k];
      var p, r, q := "|" + Pair(keys[0], tags[keys[0]]), Render(keys[1..], tags), "|" + Pair(k, tags[k]);
      assert p + (r + q) == p + r + q;
    }
  }

  // The map is walked in an arbitrary order; the key does not depend on it.
  method SeriesKeyOf(name: string, tags: map<string, string>) returns (key: string)
    ensures key == KeyOf(name, tags)
  {
    hide Less, Render, Insert, SortStrings;
    RenderNone(tags);
    SortedUniqueSet([], tags.Keys);
    if |tags| == 0 {
      assert name + "" == name;
      return name;
    }
    var keys: seq<string> := [];
    var todo := tags.Keys;
    while todo != {}
      invariant forall y :: y in tags.Keys <==> y in keys || y in todo
      decreases todo
    {
      var k :| k in todo;
      keys := keys + [k];
      todo := todo - {k};
    }
    SortSorts(keys);
    keys := SortStrings(keys);
    SortedUniqueSet(keys, tags.Keys);
    key := name;
    for i := 0 to |keys|
      invariant forall x :: x in keys ==> x in tags
      invariant key == name + Render(keys[..i], tags)
    {
      var k := keys[i];
      RenderSnoc(keys[..i], k, tags);
      assert keys[..i + 1] == keys[..i] + [k];
      key := key + "|";
      key := key + k + "=" + tags[k];
      assert key == name + (Render(keys[..i], tags) + "|" + Pair(k, tags[k]));
    }
    assert keys[..|keys|] == keys;
  }

  lemma RenderNone(tags: map<string, string>)
    ensures Render([], tags) == ""
  {
  }

  lemma SortedUniqueSet(a: seq<string>, keys: set<string>)
    ensures Sorted(a) && (forall y :: y in a <==> y in keys) ==> a == SortedKeys(keys)
  {
    hide Less, SortedKeys;
    if Sorted(a) && (forall y :: y in a <==> y in keys) {
      SortedUnique(a, SortedKeys(keys));
    }
  }

  // Reading a key back ---------------------------------------------------------------------------

  // Names and values without a bar, tag names without an equals sign.
  predicate Clean(name: string, tags: map<string, string>) {
    Free(name, {'|'}) && CleanTags(tags)
  }

  predicate CleanTags(tags: map<string, string>) {
    forall k :: k in tags ==> Free(k, {'='}) && Free(tags[k], {'|'})
  }

  lemma RenderCons(keys: seq<string>, tags: map<string, string>)
    requires forall k :: k in keys ==> k in tags
    ensures keys == [] ==> Render(keys, tags) == ""
    ensures keys != [] ==>
      Render(keys, tags) == "|" + (keys[0] + ("=" + (tags[keys[0]] + Render(keys[1..], tags))))
  {
    if keys != [] {
      var k, v, r := keys[0], tags[keys[0]], Render(keys[1..], tags);
      assert "|" + (k + "=" + v) + r == "|" + (k + ("=" + (v + r)));
    }
  }

  // A text that starts with a word free of the stop character can be split in one way only.
  lemma SplitOnce(a: string, x: string, b: string, y: string, stop: char)
    requires Free(a, {stop}) && Free(b, {stop}) && a + x == b + y
    requires (x == "" || x[0] == stop) && (y == "" || y[0] == stop)
    ensures a == b && x == y
  {
    hide Find;
    FindAfter(a, x, {stop});
    FindAfter(b, y, {stop});
  }

  // A value, or the name, followed by the remaining pairs.
  lemma {:induction false} RenderInjective(
      v: string, a: seq<string>, s: map<string, string>, w: string, b: seq<string>, t: map<string, string>)
    requires (forall k :: k in a ==> k in s) && (forall k :: k in b ==> k in t)
    requires CleanTags(s) && CleanTags(t) && Free(v, {'|'}) && Free(w, {'|'})
    requires v + Render(a, s) == w + Render(b, t)
    ensures v == w && a == b && forall k :: k in a ==> s[k] == t[k]
    decreases |a|
  {
    hide Render, Free;
    RenderCons(a, s);
    RenderCons(b, t);
    SplitOnce(v, Render(a, s), w, Render(b, t), '|');
    assert a == [] <==> b == [];
    if a != [] {
      var x, y := s[a[0]] + Render(a[1..], s), t[b[0]] + Render(b[1..], t);
      assert Render(a, s)[1..] == a[0] + ("=" + x) && Render(b, t)[1..] == b[0] + ("=" + y);
      SplitOnce(a[0], "=" + x, b[0], "=" + y, '=');
      assert ("=" + x)[1..] == x && ("=" + y)[1..] == y;
      RenderInjective(s[a[0]], a[1..], s, t[b[0]], b[1..], t);
      assert a == [a[0]] + a[1..] && b == [b[0]] + b[1..];
    }
  }

  // Main result: clean series with the same key are the same series.
  lemma KeysIdentifySeries(n: string, s: map<string, string>, m: string, t: map<string, string>)
    requires Clean(n, s) && Clean(m, t) && KeyOf(n, s) == KeyOf(m, t)
    ensures n == m && s == t
  {
    hide Render, SortedKeys, Less, CleanTags;
    var a, b := SortedKeys(s.Keys), SortedKeys(t.Keys);
    RenderInjective(n, a, s, m, b, t);
    forall k
      ensures k in s <==> k in t
    {
      assert k in s <==> k in a;
      assert k in t <==> k in b;
    }
  }

  // Why each part of Clean is needed -------------------------------------------------------------

  lemma SmallKeys(name: string)
    ensures KeyOf(name, map[]) == name
    ensures forall k, v :: KeyOf(name, map[k := v]) == name + ("|" + Pair(k, v))
  {
    hide Less, SortedKeys, Pair, Render;
    var none: map<string, string> := map[];
    SortedUniqueSet([], none.Keys);
    RenderNone(none);
    assert name + "" == name;
    forall k, v
      ensures KeyOf(name, map[k := v]) == name + ("|" + Pair(k, v))
    {
      var tags := map[k := v];
      assert tags.Keys == {k};
      SortedUniqueSet([k], tags.Keys);
      RenderOne(k, tags);
    }
  }

  lemma RenderOne(k: string, tags: map<string, string>)
    requires k in tags
    ensures Render([k], tags) == "|" + Pair(k, tags[k])
  {
    hide Pair;
    assert [k][1..] == [] && "|" + Pair(k, tags[k]) + "" == "|" + Pair(k, tags[k]);
  }

  // Two tags are printed in the order of their names.
  lemma KeyOfTwo(n: string, a: string, v: string, b: string, w: string)
    requires Less(a, b)
    ensures KeyOf(n, map[b := w, a := v]) == n + "|" + a + "=" + v + "|" + b + "=" + w
  {
    hide Less, SortedKeys, Render;
    LessTotal(a, b);
    var tags := map[b := w, a := v];
    assert tags.Keys == {a, b};
    SortedUniqueSet([a, b], tags.Keys);
    RenderOne(a, tags);
    RenderSnoc([a], b, tags);
    assert [a] + [b] == [a, b];
    assert n + ("|" + (a + "=" + v) + "|" + (b + "=" + w)) == n + "|" + a + "=" + v + "|" + b + "=" + w;
  }

  // A bar in a name: any name, tag name and value.
  lemma NameBarCollides(n: string, k: string, v: string)
    ensures KeyOf(n + ("|" + Pair(k, v)), map[]) == KeyOf(n, map[k := v])
  {
    hide KeyOf, Pair;
    SmallKeys(n);
    SmallKeys(n + ("|" + Pair(k, v)));
  }

  // An equals sign in a tag name: any name and parts.
  lemma KeyEqualsCollides(n: string, a: string, b: string, c: string)
    ensures KeyOf(n, map[a + "=" + b := c]) == KeyOf(n, map[a := b + "=" + c])
    ensures map[a + "=" + b := c] != map[a := b + "=" + c]
  {
    hide KeyOf;
    SmallKeys(n);
    assert a + "=" + b + "=" + c == a + "=" + (b + "=" + c);
    assert |a + "=" + b| > |a|;
    assert a + "=" + b in map[a + "=" + b := c] && a + "=" + b !in map[a := b + "=" + c];
  }

  // A bar in a value: any name, any two tag names in order, and values.
  lemma ValueBarCollides(n: string, a: string, v: string, b: string, w: string)
    requires Less(a, b)
    ensures KeyOf(n, map[a := v + ("|" + Pair(b, w))]) == KeyOf(n, map[a := v, b := w])
    ensures map[a := v + ("|" + Pair(b, w))] != map[a := v, b := w]
  {
    hide Less, SortedKeys, Render;
    SmallKeys(n);
    LessTotal(a, b);
    var tags := map[a := v, b := w];
    assert tags.Keys == {a, b};
    SortedUniqueSet([a, b], tags.Keys);
    RenderOne(a, tags);
    RenderSnoc([a], b, tags);
    assert [a] + [b] == [a, b];
    assert n + ("|" + (a + "=" + (v + ("|" + Pair(b, w))))) == n + ("|" + Pair(a, v) + "|" + Pair(b, w));
    assert b in tags && b !in map[a := v + ("|" + Pair(b, w))];
  }

  // For example: with a bar in a name two different series share a key.
  lemma BarCollides()
    ensures KeyOf("a|b=c", map[]) == KeyOf("a", map["b" := "c"])
  {
    hide KeyOf;
    NameBarCollides("a", "b", "c");
    assert "a" + ("|" + Pair("b", "c")) == "a|b=c";
  }
}
