/** The bounded JSON boundary of plugins: a heap of arrays and objects is accepted as a finite tree. */
module PluginJson {
  import opened Text
  import opened Reachability

  const MAX_NODES: nat := 20_000
  const MAX_DEPTH: nat := 24
  const MAX_CHARACTERS: nat := 262_144

  /** A JavaScript value; objects and arrays are references into the heap. */
  datatype Value =
    | Null
    | Bool(b: bool)
    | Number(n: real)
    | NonFinite
    | Str(s: string)
    | Reference(r: int)
    | Unsupported

  datatype RawCell = Array(items: seq<Value>) | Plain(keys: seq<string>, items: seq<Value>) | Foreign

  /** The enumerable entries of a plain object, as keys and values in the same order. */
  type Cell = c: RawCell | c.Plain? ==> |c.keys| == |c.items| witness Foreign

  type Heap = map<int, Cell>

  datatype Json = Leaf(value: Value) | JArray(items: seq<Json>) | JObject(keys: seq<string>, items: seq<Json>)

  predicate IsLeaf(v: Value) { v.Null? || v.Bool? || v.Number? || v.Str? }

  predicate AllowedKey(key: string) { key !in ["__proto__", "prototype", "constructor"] }

  // ---------------------------------------------------------------- the unfolding

  /** The finite tree `t` is what `v` unfolds to when every reference is followed. */
  ghost predicate Unfolds(h: Heap, v: Value, t: Json)
    decreases t
  {
    match t
    case Leaf(x) => v == x && IsLeaf(v)
    case JArray(ts) =>
      v.Reference? && v.r in h && h[v.r].Array? && UnfoldsAll(h, h[v.r].items, ts)
    case JObject(keys, ts) =>
      v.Reference? && v.r in h && h[v.r].Plain? && h[v.r].keys == keys && UnfoldsAll(h, h[v.r].items, ts)
  }

  ghost predicate UnfoldsAll(h: Heap, vs: seq<Value>, ts: seq<Json>)
    decreases ts
  {
    |vs| == |ts| && (vs != [] ==> Unfolds(h, vs[0], ts[0]) && UnfoldsAll(h, vs[1..], ts[1..]))
  }

  function Nodes(t: Json): nat
    decreases t
  {
    1 + if t.Leaf? then 0 else NodesOf(t.items)
  }

  function NodesOf(ts: seq<Json>): nat
    decreases ts
  {
    if ts == [] then 0 else Nodes(ts[0]) + NodesOf(ts[1..])
  }

  /** The length of a string in UTF-16 units: a character outside the basic plane takes two. */
  function Units(s: string): nat {
    if s == "" then 0 else (if s[0] as int > 0xFFFF then 2 else 1) + Units(s[1..])
  }

  /** Units add up, character by character, and only characters outside the basic plane take two. */
  lemma {:induction false} UnitsAre(s: string, c: char, t: string)
    ensures Units(s + [c] + t) == Units(s) + (if 0x1_0000 <= c as int then 2 else 1) + Units(t)
  {
    if s == "" {
      assert (s + [c] + t)[1..] == t;
    } else {
      UnitsAre(s[1..], c, t);
      assert (s + [c] + t)[1..] == s[1..] + [c] + t;
    }
  }

  /** Text and key lengths together. */
  function Characters(t: Json): nat
    decreases t
  {
    match t
    case Leaf(v) => if v.Str? then Units(v.s) else 0
    case JArray(ts) => CharactersOf(ts)
    case JObject(keys, ts) => KeyLengths(keys) + CharactersOf(ts)
  }

  function CharactersOf(ts: seq<Json>): nat
    decreases ts
  {
    if ts == [] then 0 else Characters(ts[0]) + CharactersOf(ts[1..])
  }

  function KeyLengths(keys: seq<string>): nat {
    if keys == [] then 0 else Units(keys[0]) + KeyLengths(keys[1..])
  }

  /** The tree has at most `d` levels below its root, and no forbidden key. */
  ghost predicate Shallow(t: Json, d: int)
    decreases t
  {
    && d >= 0
    && match t
       case Leaf(_) => true
       case JArray(ts) => ShallowAll(ts, d - 1)
       case JObject(keys, ts) => (forall k :: k in keys ==> AllowedKey(k)) && ShallowAll(ts, d - 1)
  }

  ghost predicate ShallowAll(ts: seq<Json>, d: int)
    decreases ts
  {
    ts != [] ==> Shallow(ts[0], d) && ShallowAll(ts[1..], d)
  }

  /** `t` is the unfolding of `v` and keeps every limit when counting starts from the given totals. */
  ghost predicate Fits(h: Heap, v: Value, t: Json, depth: int, nodes: nat, characters: nat) {
    && Unfolds(h, v, t)
    && Shallow(t, MAX_DEPTH - depth)
    && nodes + Nodes(t) <= MAX_NODES
    && characters + Characters(t) <= MAX_CHARACTERS
  }

  /** The three limits and the forbidden keys, for a whole value. */
  ghost predicate WithinLimits(t: Json) {
    Shallow(t, MAX_DEPTH) && Nodes(t) <= MAX_NODES && Characters(t) <= MAX_CHARACTERS
  }

  ghost predicate FitsAll(h: Heap, keys: seq<string>, vs: seq<Value>, ts: seq<Json>, depth: int, nodes: nat,
                          characters: nat) {
    && UnfoldsAll(h, vs, ts)
    && ShallowAll(ts, MAX_DEPTH - depth)
    && (forall k :: k in keys ==> AllowedKey(k))
    && nodes + NodesOf(ts) <= MAX_NODES
    && characters + KeyLengths(keys) + CharactersOf(ts) <= MAX_CHARACTERS
  }

  /** There is at most one unfolding. */
  lemma {:induction false} UnfoldingUnique(h: Heap, v: Value, t: Json, u: Json)
    requires Unfolds(h, v, t) && Unfolds(h, v, u)
    ensures t == u
    decreases t
  {
    if !t.Leaf? { UnfoldingsUnique(h, h[v.r].items, t.items, u.items); }
  }

  lemma {:induction false} UnfoldingsUnique(h: Heap, vs: seq<Value>, ts: seq<Json>, us: seq<Json>)
    requires UnfoldsAll(h, vs, ts) && UnfoldsAll(h, vs, us)
    ensures ts == us
    decreases ts
  {
    if vs != [] {
      UnfoldingUnique(h, vs[0], ts[0], us[0]);
      UnfoldingsUnique(h, vs[1..], ts[1..], us[1..]);
      assert ts == [ts[0]] + ts[1..] && us == [us[0]] + us[1..];
    }
  }

  /** The unfolding of an item is smaller than that of the cell that holds it. */
  lemma {:induction false} ItemUnfolds(h: Heap, vs: seq<Value>, ts: seq<Json>, i: nat)
    requires UnfoldsAll(h, vs, ts) && i < |vs|
    ensures Unfolds(h, vs[i], ts[i]) && Nodes(ts[i]) <= NodesOf(ts)
  {
    if i > 0 { ItemUnfolds(h, vs[1..], ts[1..], i - 1); }
  }

  // ---------------------------------------------------------------- cycles

  /** `v` sits strictly inside the object `s`: whenever `s` unfolds, `v` unfolds to something smaller. */
  ghost predicate Inside(h: Heap, s: int, v: Value) {
    forall t {:trigger Smaller(h, s, v, t)} :: Smaller(h, s, v, t)
  }

  ghost predicate Smaller(h: Heap, s: int, v: Value, t: Json) {
    Unfolds(h, Reference(s), t) ==> exists u :: Unfolds(h, v, u) && Nodes(u) < Nodes(t)
  }

  lemma ReferenceUnfolds(h: Heap, r: int, t: Json)
    requires Unfolds(h, Reference(r), t)
    ensures !t.Leaf? && r in h && !h[r].Foreign? && UnfoldsAll(h, h[r].items, t.items)
    ensures Nodes(t) == 1 + NodesOf(t.items)
  {
  }

  lemma InsideItem(h: Heap, s: int, r: int, i: nat)
    requires r in h && !h[r].Foreign? && i < |h[r].items|
    requires s == r || Inside(h, s, Reference(r))
    ensures Inside(h, s, h[r].items[i])
  {
    forall t ensures Smaller(h, s, h[r].items[i], t) {
      if Unfolds(h, Reference(s), t) {
        assert s != r ==> Smaller(h, s, Reference(r), t);
        var w :| Unfolds(h, Reference(r), w) && Nodes(w) <= Nodes(t);
        ReferenceUnfolds(h, r, w);
        ItemUnfolds(h, h[r].items, w.items, i);
      }
    }
  }

  /** An object inside itself has no unfolding. */
  lemma NotInsideItself(h: Heap, r: int, t: Json)
    requires Inside(h, r, Reference(r))
    ensures !Unfolds(h, Reference(r), t)
  {
    if Unfolds(h, Reference(r), t) {
      assert Smaller(h, r, Reference(r), t);
      var u :| Unfolds(h, Reference(r), u) && Nodes(u) < Nodes(t);
      UnfoldingUnique(h, Reference(r), t, u);
    }
  }

  ghost predicate Holds(h: Heap, a: int, b: int) { a in h && !h[a].Foreign? && Reference(b) in h[a].items }

  ghost function References(h: Heap): (int, int) -> bool { (a, b) => Holds(h, a, b) }

  lemma {:induction false} PathInside(h: Heap, p: seq<int>)
    requires Path(References(h), p) && |p| > 1
    ensures Inside(h, p[0], Reference(p[|p| - 1]))
  {
    var n := |p|;
    var q := p[..n - 1];
    assert References(h)(p[n - 2], p[n - 1]);
    var i :| 0 <= i < |h[p[n - 2]].items| && h[p[n - 2]].items[i] == Reference(p[n - 1]);
    if n > 2 {
      forall k | 0 <= k < |q| - 1 ensures References(h)(q[k], q[k + 1]) {
        assert References(h)(p[k], p[k + 1]);
      }
      PathInside(h, q);
      assert q[|q| - 1] == p[n - 2];
    }
    InsideItem(h, p[0], p[n - 2], i);
  }

  /** An object that reaches itself through one or more references is never accepted. */
  lemma CyclicRefused(h: Heap, a: int, b: int, t: Json)
    requires Holds(h, a, b) && Reaches(References(h), b, a)
    ensures !Unfolds(h, Reference(a), t)
  {
    var p :| Path(References(h), p) && p[0] == b && p[|p| - 1] == a;
    var q := [a] + p;
    forall k | 0 <= k < |q| - 1 ensures References(h)(q[k], q[k + 1]) {
      if k > 0 { assert References(h)(p[k - 1], p[k]); }
    }
    PathInside(h, q);
    NotInsideItself(h, a, t);
  }

  /** One or more references lead from `a` to `c`. */
  ghost predicate StrictlyReaches(h: Heap, a: int, c: int) {
    exists b :: Holds(h, a, b) && Reaches(References(h), b, c)
  }

  /** An array or plain object of leaves and references. */
  ghost predicate Ordinary(h: Heap, r: int) {
    r in h && !h[r].Foreign? && forall i :: 0 <= i < |h[r].items| ==> IsLeaf(h[r].items[i]) || h[r].items[i].Reference?
  }

  /** Everything that is reached is ordinary, and nothing that is reached reaches itself. Sharing is allowed. */
  ghost predicate Unrolls(h: Heap, v: Value) {
    || IsLeaf(v)
    || (v.Reference? && forall r :: Reaches(References(h), v.r, r) ==> Ordinary(h, r) && !StrictlyReaches(h, r, r))
  }

  lemma {:induction false} ReachedUnfolds(h: Heap, p: seq<int>, t: Json) returns (u: Json)
    requires Path(References(h), p) && Unfolds(h, Reference(p[0]), t)
    ensures Unfolds(h, Reference(p[|p| - 1]), u)
    decreases |p|
  {
    if |p| == 1 {
      u := t;
    } else {
      assert References(h)(p[0], p[1]);
      var i :| 0 <= i < |h[p[0]].items| && h[p[0]].items[i] == Reference(p[1]);
      ItemUnfolds(h, h[p[0]].items, t.items, i);
      forall k | 0 <= k < |p| - 2 ensures References(h)(p[1..][k], p[1..][k + 1]) {
        assert References(h)(p[k + 1], p[k + 2]);
      }
      u := ReachedUnfolds(h, p[1..], t.items[i]);
    }
  }

  lemma {:induction false} ItemsAreOrdinary(h: Heap, vs: seq<Value>, ts: seq<Json>)
    requires UnfoldsAll(h, vs, ts)
    ensures forall i :: 0 <= i < |vs| ==> IsLeaf(vs[i]) || vs[i].Reference?
  {
    forall i | 0 <= i < |vs| ensures IsLeaf(vs[i]) || vs[i].Reference? { ItemUnfolds(h, vs, ts, i); }
  }

  lemma UnfoldedUnrolls(h: Heap, v: Value, t: Json)
    requires Unfolds(h, v, t)
    ensures Unrolls(h, v)
  {
    if v.Reference? {
      forall r | Reaches(References(h), v.r, r) ensures Ordinary(h, r) && !StrictlyReaches(h, r, r) {
        var p :| Path(References(h), p) && p[0] == v.r && p[|p| - 1] == r;
        var u := ReachedUnfolds(h, p, t);
        ReferenceUnfolds(h, r, u);
        ItemsAreOrdinary(h, h[r].items, u.items);
        if b :| Holds(h, r, b) && Reaches(References(h), b, r) { CyclicRefused(h, r, b, u); }
      }
    }
  }

  /** What a reached object holds is reached, strictly from every object above it. */
  lemma ReachesItem(h: Heap, above: set<int>, r: int, c: int)
    requires Holds(h, r, c)
    requires forall s :: s in above ==> StrictlyReaches(h, s, r)
    ensures forall s :: s in above + {r} ==> StrictlyReaches(h, s, c)
  {
    ReachesSelf(References(h), c);
    forall s | s in above ensures StrictlyReaches(h, s, c) {
      var b :| Holds(h, s, b) && Reaches(References(h), b, r);
      ReachesStep(References(h), b, r, c);
    }
  }

  /** Descending along the references visits no object twice, so it ends. */
  lemma {:induction false} UnrolledUnfolds(h: Heap, start: int, v: Value, above: set<int>) returns (t: Json)
    requires Unrolls(h, Reference(start)) && above <= h.Keys
    requires IsLeaf(v) || (v.Reference? && Reaches(References(h), start, v.r))
    requires v.Reference? ==> forall s :: s in above ==> StrictlyReaches(h, s, v.r)
    ensures Unfolds(h, v, t)
    decreases h.Keys - above, 1, 0
  {
    if IsLeaf(v) {
      t := Leaf(v);
    } else {
      assert Ordinary(h, v.r) && !StrictlyReaches(h, v.r, v.r);
      var cell := h[v.r];
      var ts := UnrolledItems(h, start, v.r, cell.items, above + {v.r}, above);
      t := if cell.Array? then JArray(ts) else JObject(cell.keys, ts);
    }
  }

  lemma {:induction false} UnrolledItems(h: Heap, start: int, r: int, vs: seq<Value>, below: set<int>, above: set<int>)
    returns (ts: seq<Json>)
    requires Unrolls(h, Reference(start)) && Reaches(References(h), start, r) && r in h && !h[r].Foreign?
    requires above <= h.Keys && r !in above && below == above + {r}
    requires forall s :: s in above ==> StrictlyReaches(h, s, r)
    requires forall i :: 0 <= i < |vs| ==> vs[i] in h[r].items
    ensures UnfoldsAll(h, vs, ts)
    decreases h.Keys - above, 0, |vs|
  {
    ts := [];
    if vs != [] {
      var v := vs[0];
      assert Ordinary(h, r);
      if v.Reference? {
        ReachesItem(h, above, r, v.r);
        ReachesStep(References(h), start, r, v.r);
      }
      assert h.Keys - below < h.Keys - above by { assert r in h.Keys - above && r !in h.Keys - below; }
      var t := UnrolledUnfolds(h, start, v, below);
      var rest := UnrolledItems(h, start, r, vs[1..], below, above);
      ts := [t] + rest;
    }
  }

  lemma Unroll(h: Heap, v: Value) returns (t: Json)
    requires Unrolls(h, v)
    ensures Unfolds(h, v, t)
  {
    t := Leaf(v);
    if v.Reference? {
      ReachesSelf(References(h), v.r);
      t := UnrolledUnfolds(h, v.r, v, {});
    }
  }

  ghost predicate HasUnfolding(h: Heap, v: Value) { exists t :: Unfolds(h, v, t) }

  /** A value has an unfolding if and only if what it reaches is ordinary and free of cycles. */
  lemma UnfoldsExactly(h: Heap, v: Value)
    ensures HasUnfolding(h, v) <==> Unrolls(h, v)
  {
    hide Unrolls;
    if t :| Unfolds(h, v, t) { UnfoldedUnrolls(h, v, t); }
    if Unrolls(h, v) {
      var t := Unroll(h, v);
    }
  }

  // ---------------------------------------------------------------- sums over a growing list

  lemma {:induction false} UnfoldsAppend(h: Heap, vs: seq<Value>, ts: seq<Json>, v: Value, t: Json)
    requires UnfoldsAll(h, vs, ts) && Unfolds(h, v, t)
    ensures UnfoldsAll(h, vs + [v], ts + [t])
    ensures NodesOf(ts + [t]) == NodesOf(ts) + Nodes(t)
    ensures CharactersOf(ts + [t]) == CharactersOf(ts) + Characters(t)
  {
    if vs == [] {
      assert vs + [v] == [v] && ts + [t] == [t];
    } else {
      UnfoldsAppend(h, vs[1..], ts[1..], v, t);
      assert (vs + [v])[1..] == vs[1..] + [v] && (ts + [t])[1..] == ts[1..] + [t];
    }
  }

  lemma {:induction false} ShallowAppend(ts: seq<Json>, t: Json, d: int)
    requires ShallowAll(ts, d) && Shallow(t, d)
    ensures ShallowAll(ts + [t], d)
  {
    if ts == [] {
      assert ts + [t] == [t];
    } else {
      ShallowAppend(ts[1..], t, d);
      assert (ts + [t])[1..] == ts[1..] + [t];
    }
  }

  lemma {:induction false} KeyLengthsAppend(keys: seq<string>, key: string)
    ensures KeyLengths(keys + [key]) == KeyLengths(keys) + Units(key)
  {
    if keys == [] {
      assert keys + [key] == [key];
    } else {
      KeyLengthsAppend(keys[1..], key);
      assert (keys + [key])[1..] == keys[1..] + [key];
    }
  }

  /** Every prefix of a list that fits, and the item after it, fit in what is left. */
  lemma {:induction false} PrefixFits(h: Heap, vs: seq<Value>, ts: seq<Json>, i: nat, d: int)
    requires UnfoldsAll(h, vs, ts) && ShallowAll(ts, d) && i < |vs|
    ensures UnfoldsAll(h, vs[..i], ts[..i]) && Unfolds(h, vs[i], ts[i]) && Shallow(ts[i], d)
    ensures NodesOf(ts[..i]) + Nodes(ts[i]) <= NodesOf(ts)
    ensures CharactersOf(ts[..i]) + Characters(ts[i]) <= CharactersOf(ts)
  {
    if i > 0 {
      PrefixFits(h, vs[1..], ts[1..], i - 1, d);
      assert vs[..i][1..] == vs[1..][..i - 1] && ts[..i][1..] == ts[1..][..i - 1];
      assert ts[..i][0] == ts[0];
    }
  }

  lemma {:induction false} KeyPrefix(keys: seq<string>, i: nat)
    requires i <= |keys|
    ensures KeyLengths(keys[..i]) <= KeyLengths(keys)
  {
    if i > 0 {
      KeyPrefix(keys[1..], i - 1);
      assert keys[..i][1..] == keys[1..][..i - 1];
    }
  }

  ghost function Take(keys: seq<string>, i: nat): seq<string> { if i <= |keys| then keys[..i] else keys }

  lemma TakeMore(keys: seq<string>, i: nat)
    ensures KeyLengths(Take(keys, i + 1)) == KeyLengths(Take(keys, i)) + if i < |keys| then Units(keys[i]) else 0
    ensures forall k :: k in Take(keys, i + 1) <==> k in Take(keys, i) || (i < |keys| && k == keys[i])
  {
    if i < |keys| {
      KeyLengthsAppend(keys[..i], keys[i]);
      assert Take(keys, i + 1) == Take(keys, i) + [keys[i]];
    } else {
      assert Take(keys, i + 1) == Take(keys, i) by { if i == |keys| { assert keys[..i] == keys; } }
    }
  }

  lemma TakeAll(keys: seq<string>, i: nat)
    requires |keys| <= i
    ensures Take(keys, i) == keys
  {
    if i == |keys| { assert keys[..i] == keys; }
  }

  lemma StartFits(h: Heap, keys: seq<string>, depth: int, nodes: nat, characters: nat)
    requires nodes <= MAX_NODES && characters <= MAX_CHARACTERS
    ensures FitsAll(h, Take(keys, 0), [], [], depth, nodes, characters)
    ensures NodesOf([]) == CharactersOf([]) == KeyLengths(Take(keys, 0)) == 0
  {
    assert Take(keys, 0) == [];
  }

  /** The next item fits behind those that fit. */
  lemma ItemFits(h: Heap, keys: seq<string>, vs: seq<Value>, ts: seq<Json>, i: nat, t: Json, depth: int, n: nat, c: nat)
    requires i < |vs| && FitsAll(h, Take(keys, i), vs[..i], ts, depth, n, c) && (i < |keys| ==> AllowedKey(keys[i]))
    requires Fits(h, vs[i], t, depth, n + NodesOf(ts), c + KeyLengths(Take(keys, i + 1)) + CharactersOf(ts))
    ensures FitsAll(h, Take(keys, i + 1), vs[..i + 1], ts + [t], depth, n, c)
    ensures NodesOf(ts + [t]) == NodesOf(ts) + Nodes(t) && CharactersOf(ts + [t]) == CharactersOf(ts) + Characters(t)
    ensures n + NodesOf(ts + [t]) <= MAX_NODES
    ensures c + KeyLengths(Take(keys, i + 1)) + CharactersOf(ts + [t]) <= MAX_CHARACTERS
  {
    TakeMore(keys, i);
    UnfoldsAppend(h, vs[..i], ts, vs[i], t);
    ShallowAppend(ts, t, MAX_DEPTH - depth);
    assert vs[..i + 1] == vs[..i] + [vs[i]];
  }

  /** What is known of any list that fits, when its first items have been visited. */
  lemma Continues(h: Heap, keys: seq<string>, vs: seq<Value>, ts: seq<Json>, us: seq<Json>, i: nat, depth: int,
                  n: nat, c: nat, m: nat, d: nat)
    requires i < |vs| && FitsAll(h, Take(keys, i), vs[..i], ts, depth, n, c) && FitsAll(h, keys, vs, us, depth, n, c)
    requires m == n + NodesOf(ts) && d == c + KeyLengths(Take(keys, i + 1)) + CharactersOf(ts)
    ensures i < |us| && (i < |keys| ==> AllowedKey(keys[i])) && d <= MAX_CHARACTERS
    ensures Fits(h, vs[i], us[i], depth, m, d)
  {
    PrefixFits(h, vs, us, i, MAX_DEPTH - depth);
    UnfoldingsUnique(h, vs[..i], us[..i], ts);
    KeyPrefix(keys, if i < |keys| then i + 1 else |keys|);
    assert i >= |keys| ==> keys[..|keys|] == keys;
  }

  lemma KeyRefuses(h: Heap, keys: seq<string>, vs: seq<Value>, ts: seq<Json>, i: nat, depth: int, n: nat, c: nat)
    requires i < |vs| && i < |keys| && FitsAll(h, Take(keys, i), vs[..i], ts, depth, n, c)
    requires !AllowedKey(keys[i]) || c + KeyLengths(Take(keys, i + 1)) + CharactersOf(ts) > MAX_CHARACTERS
    ensures forall us :: !FitsAll(h, keys, vs, us, depth, n, c)
  {
    hide FitsAll, Fits, AllowedKey, KeyLengths, Take;
    forall us ensures !FitsAll(h, keys, vs, us, depth, n, c) {
      if FitsAll(h, keys, vs, us, depth, n, c) {
        Continues(h, keys, vs, ts, us, i, depth, n, c,
                  n + NodesOf(ts), c + KeyLengths(Take(keys, i + 1)) + CharactersOf(ts));
      }
    }
  }

  lemma ItemRefuses(h: Heap, keys: seq<string>, vs: seq<Value>, ts: seq<Json>, i: nat, depth: int,
                    n: nat, c: nat, m: nat, d: nat)
    requires i < |vs| && FitsAll(h, Take(keys, i), vs[..i], ts, depth, n, c)
    requires m == n + NodesOf(ts) && d == c + KeyLengths(Take(keys, i + 1)) + CharactersOf(ts)
    requires forall t :: !Fits(h, vs[i], t, depth, m, d)
    ensures forall us :: !FitsAll(h, keys, vs, us, depth, n, c)
  {
    hide FitsAll, Fits, AllowedKey, KeyLengths, Take;
    forall us ensures !FitsAll(h, keys, vs, us, depth, n, c) {
      if FitsAll(h, keys, vs, us, depth, n, c) { Continues(h, keys, vs, ts, us, i, depth, n, c, m, d); }
    }
  }

  // ---------------------------------------------------------------- the visitor

  /** The counters and the path that the nested `visit` shares. */
  class Visitor {
    const heap: Heap
    var nodes: nat
    var characters: nat
    var seen: set<int>

    constructor (heap: Heap)
      ensures this.heap == heap && nodes == 0 && characters == 0 && seen == {}
    {
      this.heap := heap;
      nodes, characters, seen := 0, 0, {};
    }

    /** Answers the unfolding exactly when it fits what the earlier siblings have left of the limits. */
    method Visit(v: Value, depth: nat) returns (r: Result<Json>)
      requires depth <= MAX_DEPTH + 1 && nodes <= MAX_NODES && characters <= MAX_CHARACTERS
      requires forall s :: s in seen ==> Inside(heap, s, v)
      modifies this
      ensures r.Ok? ==> Fits(heap, v, r.value, depth, old(nodes), old(characters))
      ensures r.Ok? ==> nodes == old(nodes) + Nodes(r.value) && characters == old(characters) + Characters(r.value)
      ensures r.Error? ==> forall t :: !Fits(heap, v, t, depth, old(nodes), old(characters))
      ensures seen == old(seen)
      decreases MAX_DEPTH + 1 - depth, 1
    {
      nodes := nodes + 1;
      if nodes > MAX_NODES || depth > MAX_DEPTH {
        return Error;
      }
      if v.Null? || v.Bool? || v.Number? {
        return Ok(Leaf(v));
      }
      if v.Str? {
        characters := characters + Units(v.s);
        return if characters > MAX_CHARACTERS then Error else Ok(Leaf(v));
      }
      if !v.Reference? || v.r !in heap || v.r in seen {
        forall t ensures !Unfolds(heap, v, t) {
          if v.Reference? && v.r in seen { NotInsideItself(heap, v.r, t); }
        }
        return Error;
      }
      seen := seen + {v.r};
      var cell := heap[v.r];
      if cell.Foreign? {
        r := Error;
      } else {
        var keys := if cell.Plain? then cell.keys else [];
        ghost var n, c := nodes, characters;
        var items := VisitItems(v.r, keys, depth + 1);
        if items.Error? {
          forall t ensures !Fits(heap, v, t, depth, old(nodes), old(characters)) {
            assert Unfolds(heap, v, t) ==> !t.Leaf?;
            if !t.Leaf? { assert !FitsAll(heap, keys, cell.items, t.items, depth + 1, n, c); }
          }
        }
        r := match items
          case Error => Error
          case Ok(ts) => Ok(if cell.Array? then JArray(ts) else JObject(keys, ts));
      }
      seen := seen - {v.r};
    }

    /** The items of one cell, in order; for an object each key is counted before its value. */
    method VisitItems(self: int, keys: seq<string>, depth: nat) returns (r: Result<seq<Json>>)
      requires self in heap && !heap[self].Foreign?
      requires keys == if heap[self].Plain? then heap[self].keys else []
      requires depth <= MAX_DEPTH + 1 && nodes <= MAX_NODES && characters <= MAX_CHARACTERS
      requires forall s :: s in seen ==> s == self || Inside(heap, s, Reference(self))
      modifies this
      ensures r.Ok? ==> FitsAll(heap, keys, heap[self].items, r.value, depth, old(nodes), old(characters))
      ensures r.Ok? ==> nodes == old(nodes) + NodesOf(r.value)
      ensures r.Ok? ==> characters == old(characters) + KeyLengths(keys) + CharactersOf(r.value)
      ensures r.Error? ==> forall ts :: !FitsAll(heap, keys, heap[self].items, ts, depth, old(nodes), old(characters))
      ensures seen == old(seen)
      decreases MAX_DEPTH + 1 - depth, 2
    {
      hide FitsAll, Fits, Inside, NodesOf, CharactersOf, KeyLengths, Take, Units, AllowedKey;
      var vs := heap[self].items;
      var ts: seq<Json> := [];
      StartFits(heap, keys, depth, nodes, characters);
      for i := 0 to |vs|
        invariant seen == old(seen)
        invariant FitsAll(heap, Take(keys, i), vs[..i], ts, depth, old(nodes), old(characters))
        invariant nodes <= MAX_NODES && characters <= MAX_CHARACTERS
        invariant nodes == old(nodes) + NodesOf(ts)
        invariant characters == old(characters) + KeyLengths(Take(keys, i)) + CharactersOf(ts)
      {
        TakeMore(keys, i);
        if i < |keys| {
          characters := characters + Units(keys[i]);
          if characters > MAX_CHARACTERS || !AllowedKey(keys[i]) {
            KeyRefuses(heap, keys, vs, ts, i, depth, old(nodes), old(characters));
            return Error;
          }
        }
        forall s | s in seen ensures Inside(heap, s, vs[i]) { InsideItem(heap, s, self, i); }
        ghost var n, c := nodes, characters;
        var item := Visit(vs[i], depth);
        if item.Error? {
          ItemRefuses(heap, keys, vs, ts, i, depth, old(nodes), old(characters), n, c);
          return Error;
        }
        ItemFits(heap, keys, vs, ts, i, item.value, depth, old(nodes), old(characters));
        ts := ts + [item.value];
      }
      assert vs[..|vs|] == vs;
      TakeAll(keys, |vs|);
      r := Ok(ts);
    }
  }

  /** Accepts exactly the values whose unfolding exists and keeps the limits, and answers that unfolding. */
  method ParsePluginJson(h: Heap, v: Value) returns (r: Result<Json>)
    ensures forall t :: r == Ok(t) <==> Fits(h, v, t, 0, 0, 0)
    ensures r.Ok? ==> Unrolls(h, v)
    ensures r.Error? && Unrolls(h, v) ==> exists t :: Unfolds(h, v, t) && !WithinLimits(t)
  {
    var visitor := new Visitor(h);
    r := visitor.Visit(v, 0);
    hide Unrolls;
    UnfoldsExactly(h, v);
    if r.Error? && Unrolls(h, v) {
      ghost var t := Unroll(h, v);
      assert !Fits(h, v, t, 0, 0, 0);
    }
    forall t | Fits(h, v, t, 0, 0, 0) ensures r == Ok(t) {
      UnfoldingUnique(h, v, t, r.value);
    }
  }

  /** However the answer is laid out in memory, parsing it again gives the same tree. */
  lemma AnswerReparses(h: Heap, v: Value, t: Json, layout: Heap, copy: Value)
    requires Fits(h, v, t, 0, 0, 0) && Unfolds(layout, copy, t)
    ensures forall u :: Fits(layout, copy, u, 0, 0, 0) <==> u == t
  {
    forall u | Fits(layout, copy, u, 0, 0, 0) ensures u == t { UnfoldingUnique(layout, copy, u, t); }
  }
}
