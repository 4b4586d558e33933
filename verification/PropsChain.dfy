/** Layered properties: a chain of Props behaves as one flat map. */
module PropsChain {
  import opened FlowTypes
  import opened FlowSteps

  predicate StartsWith(s: string, prefix: string) {
    |prefix| <= |s| && s[..|prefix|] == prefix
  }

  lemma SuffixIsUnique(prefix: string, s: string)
    ensures forall t :: prefix + t == prefix + s ==> t == s
  {
    forall t | prefix + t == prefix + s ensures t == s {
      assert (prefix + t)[|prefix|..] == t && (prefix + s)[|prefix|..] == s;
    }
  }

  lemma NoSuffix(prefix: string, key: string)
    requires !StartsWith(key, prefix)
    ensures forall t :: prefix + t != key
  {
    forall t ensures prefix + t != key { assert StartsWith(prefix + t, prefix); }
  }

  function Except(m: PropMap, keys: set<string>): PropMap {
    map k | k in m && k !in keys :: m[k]
  }

  lemma ExceptNext(base: PropMap, m: PropMap, keys: set<string>, key: string)
    requires key in keys && key in m
    ensures base + Except(m, keys - {key}) == (base + Except(m, keys))[key := m[key]]
  {
  }

  lemma OverLayers(a: PropMap, b: PropMap, c: PropMap)
    ensures a + (b + c) == (a + b) + c
  {
  }

  lemma {:induction false} SameSize(a: set<string>, b: set<string>)
    requires a <= b && |a| == |b|
    ensures a == b
  {
    assert b == a + (b - a);
    assert |b| == |a| + |b - a|;
    assert b - a == {};
  }

  class Props {
    var current: map<string, string>
    const parent: Props?
    ghost const Chain: set<Props>  // this object and all those above it

    ghost predicate Valid()
      decreases Chain
    {
      && this in Chain
      && if parent == null then Chain == {this}
         else this !in parent.Chain && Chain == parent.Chain + {this} && parent.Valid()
    }

    /** What the chain says altogether: the nearest entry of a key counts. */
    ghost function Flat(): PropMap
      requires Valid()
      reads Chain
      decreases Chain
    {
      (if parent == null then map[] else parent.Flat()) + current
    }

    /** The objects of the chain from the top down, and their entries. */
    ghost function Objects(): seq<Props>
      requires Valid()
      decreases Chain
    {
      (if parent == null then [] else parent.Objects()) + [this]
    }

    ghost function Layers(): seq<PropMap>
      requires Valid()
      reads Chain
      decreases Chain
    {
      (if parent == null then [] else parent.Layers()) + [current]
    }

    constructor ()
      ensures Valid() && Chain == {this} && parent == null && Flat() == map[]
    {
      current, parent, Chain := map[], null, {this};
    }

    constructor Over(parent: Props?)
      requires parent != null ==> parent.Valid()
      ensures Valid() && this.parent == parent && current == map[]
      ensures Chain == (if parent == null then {} else parent.Chain) + {this}
      ensures Flat() == if parent == null then map[] else parent.Flat()
    {
      this.parent := parent;
      current := map[];
      Chain := (if parent == null then {} else parent.Chain) + {this};
    }

    /** Props(parent, props): the entries of props laid over parent. */
    constructor With(parent: Props?, props: Props?)
      requires parent != null ==> parent.Valid()
      requires props != null ==> props.Valid()
      ensures Valid() && this.parent == parent
      ensures Chain == (if parent == null then {} else parent.Chain) + {this}
      ensures Flat() == (if parent == null then map[] else parent.Flat())
                      + (if props == null then map[] else props.Flat())
    {
      this.parent := parent;
      current := map[];
      Chain := (if parent == null then {} else parent.Chain) + {this};
      new;
      hide Props.Flat;
      NewLayer(this);
      PutAll(props);
    }

    function Get(key: string): (r: Option<string>)
      requires Valid()
      reads Chain
      ensures r == if key in Flat() then Some(Flat()[key]) else None
      decreases Chain
    {
      if key in current then Some(current[key])
      else if parent != null then parent.Get(key)
      else None
    }

    predicate ContainsKey(key: string)
      requires Valid()
      reads Chain
      ensures ContainsKey(key) <==> key in Flat()
      decreases Chain
    {
      key in current || (parent != null && parent.ContainsKey(key))
    }

    method Put(key: string, value: string)
      requires Valid()
      modifies this`current
      ensures current == old(current)[key := value] && Flat() == old(Flat())[key := value]
    {
      current := current[key := value];
    }

    method GetKeySet() returns (keys: set<string>)
      requires Valid()
      ensures keys == Flat().Keys
      decreases Chain
    {
      keys := current.Keys;
      if parent != null {
        var above := parent.GetKeySet();
        keys := keys + above;
      }
    }

    /** putAll: every property of p, also when p hangs below this object. */
    method PutAll(p: Props?)
      requires Valid() && (p != null ==> p.Valid())
      modifies this`current
      ensures p == null ==> current == old(current)
      ensures p != null ==> current == old(current) + old(p.Flat()) && p.Flat() == old(p.Flat())
      ensures Flat() == old(Flat()) + (if p == null then map[] else old(p.Flat()))
    {
      if p == null {
        return;
      }
      ghost var flat := p.Flat();
      var keys := p.GetKeySet();
      assert current + Except(flat, flat.Keys) == current;
      while keys != {}
        invariant keys <= flat.Keys && p.Flat() == flat
        invariant current == old(current) + Except(flat, keys)
        decreases keys
      {
        var key :| key in keys;
        ExceptNext(old(current), flat, keys, key);
        keys := keys - {key};
        PutFrom(p, key);
      }
      assert Except(flat, {}) == flat;
      OverLayers(if parent == null then map[] else parent.Flat(), old(current), flat);
    }

    /** this.put(key, p.get(key)): even if p hangs below this object, what p says does not change. */
    method PutFrom(p: Props, key: string)
      requires Valid() && p.Valid() && key in p.Flat()
      modifies this`current
      ensures current == old(current)[key := old(p.Flat())[key]] && p.Flat() == old(p.Flat())
    {
      var value := p.Get(key).value;
      ghost var flat, layers := p.Flat(), p.Layers();
      FlatIsOverlay(p);
      ObjectsDistinct(p);
      ghost var j := IndexIn(p.Objects(), this);
      Put(key, value);
      FlatIsOverlay(p);
      LayersPut(layers, p.Layers(), j, key, value);
    }

    method GetMapByPrefix(prefix: string) returns (values: map<string, string>)
      requires Valid()
      ensures forall s :: s in values <==> prefix + s in Flat()
      ensures forall s :: s in values ==> values[s] == Flat()[prefix + s]
      decreases Chain
    {
      values := map[];
      if parent != null {
        values := parent.GetMapByPrefix(prefix);
      }
      ghost var above := values;
      var keys := current.Keys;
      while keys != {}
        invariant keys <= current.Keys
        invariant forall s :: s in values <==> s in above || (prefix + s in current && prefix + s !in keys)
        invariant forall s :: s in values ==>
                    values[s] == if prefix + s in current && prefix + s !in keys then current[prefix + s] else above[s]
        decreases keys
      {
        var key :| key in keys;
        keys := keys - {key};
        if StartsWith(key, prefix) {
          var s := key[|prefix|..];
          SuffixIsUnique(prefix, s);
          assert key == prefix + s;
          values := values[s := current[key]];
        } else {
          NoSuffix(prefix, key);
        }
      }
    }

    /** storeFlattened: what goes into the written Properties. */
    method StoreFlattened() returns (p: map<string, string>)
      requires Valid()
      ensures p == Flat()
    {
      p := map[];
      var curr: Props? := this;
      while curr != null
        invariant curr != null ==> curr.Valid() && curr.Chain <= Chain
        invariant p.Keys <= Flat().Keys && Flat().Keys == p.Keys + (if curr == null then {} else curr.Flat().Keys)
        invariant forall k :: k in p ==> p[k] == Flat()[k]
        decreases if curr == null then {} else curr.Chain
      {
        var keys := curr.current.Keys;
        ghost var before := p;
        while keys != {}
          invariant keys <= curr.current.Keys
          invariant p.Keys == before.Keys + (curr.current.Keys - keys) && p.Keys <= Flat().Keys
          invariant forall k :: k in p ==> p[k] == Flat()[k]
          decreases keys
        {
          var key :| key in keys;
          keys := keys - {key};
          if key !in p {
            p := p[key := Get(key).value];
          }
        }
        curr := curr.parent;
      }
    }

    /** The same layers in new objects. */
    method Clone() returns (dest: Props)
      requires Valid()
      ensures fresh(dest.Chain) && dest.Valid() && dest.Layers() == Layers() && dest.Flat() == Flat()
      ensures dest.parent == null <==> parent == null
      decreases Chain
    {
      hide Props.Flat, Props.Layers, Props.Valid, Overlay;
      TopLayer(this);
      var priorNodeCopy: Props? := null;
      if parent != null {
        priorNodeCopy := parent.Clone();
      }
      ghost var above := if priorNodeCopy == null then [] else priorNodeCopy.Layers();
      dest := new Props.Over(priorNodeCopy);
      dest.CopyLocal(this);
      TopLayer(dest);
      FlatIsOverlay(dest);
      FlatIsOverlay(this);
    }

    /** The loop of copyNext: the entries of this layer alone. */
    method CopyLocal(source: Props)
      requires Valid() && source.Valid() && this !in source.Chain && current == map[]
      modifies this`current
      ensures current == source.current
    {
      var keys := source.current.Keys;
      while keys != {}
        invariant keys <= source.current.Keys && current == Except(source.current, keys)
        decreases keys
      {
        var key :| key in keys;
        ExceptNext(map[], source.current, keys, key);
        keys := keys - {key};
        Put(key, source.Get(key).value);
      }
      assert Except(source.current, {}) == source.current;
    }

    method EqualsProps(p: Props?) returns (r: bool)
      requires Valid() && (p != null ==> p.Valid())
      ensures r <==> p != null && Flat() == p.Flat()
    {
      hide Props.Valid, Props.Flat, Agree;
      if p == null {
        return false;
      }
      var agree := AgreesOnKeys(p);
      var myKeySet := GetKeySet();
      var pKeySet := p.GetKeySet();
      AgreeAll(Flat(), p.Flat());
      r := agree && |myKeySet| == |pKeySet|;
    }

    /** The loop of equalsProps: p has the same value for every key of this object. */
    method AgreesOnKeys(p: Props) returns (r: bool)
      requires Valid() && p.Valid()
      ensures r <==> Agree(Flat(), p.Flat(), Flat().Keys)
    {
      var myKeySet := GetKeySet();
      var keys := myKeySet;
      while keys != {}
        invariant keys <= myKeySet && Agree(Flat(), p.Flat(), myKeySet - keys)
        decreases keys
      {
        var s :| s in keys;
        keys := keys - {s};
        if Get(s) != p.Get(s) {
          return false;
        }
      }
      r := true;
    }
  }

  predicate Agree(a: PropMap, b: PropMap, keys: set<string>)
    requires keys <= a.Keys
  {
    forall k :: k in keys ==> k in b && a[k] == b[k]
  }

  lemma AgreeAll(a: PropMap, b: PropMap)
    ensures Agree(a, b, a.Keys) && |a.Keys| == |b.Keys| <==> a == b
  {
    if Agree(a, b, a.Keys) && |a.Keys| == |b.Keys| {
      assert a.Keys <= b.Keys;
      SameSize(a.Keys, b.Keys);
    }
  }

  lemma NewLayer(p: Props)
    requires p.Valid() && p.current == map[]
    ensures p.Flat() == if p.parent == null then map[] else p.parent.Flat()
  {
  }

  ghost function IndexIn(os: seq<Props>, o: Props): (i: nat)
    ensures i <= |os| && (i < |os| ==> os[i] == o) && (i == |os| ==> o !in os)
  {
    if os == [] || os[0] == o then 0 else 1 + IndexIn(os[1..], o)
  }

  lemma {:induction false} ObjectsDistinct(p: Props)
    requires p.Valid()
    ensures forall i :: 0 <= i < |p.Objects()| ==> p.Objects()[i] in p.Chain
    ensures forall i, j :: 0 <= i < j < |p.Objects()| ==> p.Objects()[i] != p.Objects()[j]
    decreases p.Chain
  {
    if p.parent != null { ObjectsDistinct(p.parent); }
  }

  /** Putting what the layers say already. */
  lemma LayersPut(ms: seq<PropMap>, ms': seq<PropMap>, j: nat, key: string, value: string)
    requires |ms'| == |ms| && key in Overlay(ms) && Overlay(ms)[key] == value
    requires forall i :: 0 <= i < |ms| ==> ms'[i] == if i == j then ms[i][key := value] else ms[i]
    ensures Overlay(ms') == Overlay(ms)
  {
    if j < |ms| {
      assert ms' == ms[j := ms[j][key := value]];
      OverlayPut(ms, j, key, value);
      assert Overlay(ms)[key := value] == Overlay(ms);
    } else {
      assert ms' == ms;
    }
  }

  lemma TopLayer(p: Props)
    requires p.Valid()
    ensures p in p.Chain && (p.parent != null ==> p.parent.Valid() && p !in p.parent.Chain && p.parent.Chain < p.Chain)
    ensures p.Layers() == (if p.parent == null then [] else p.parent.Layers()) + [p.current]
  {
  }

  lemma {:induction false} FlatIsOverlay(p: Props)
    requires p.Valid()
    ensures p.Flat() == Overlay(p.Layers()) && |p.Layers()| == |p.Objects()| > 0
    ensures forall i :: 0 <= i < |p.Layers()| ==> p.Objects()[i] in p.Chain && p.Layers()[i] == p.Objects()[i].current
    decreases p.Chain
  {
    if p.parent == null {
      assert p.Layers()[..0] == [];
    } else {
      FlatIsOverlay(p.parent);
      assert p.Layers()[..|p.Layers()| - 1] == p.parent.Layers();
    }
  }

  lemma PutUnder(a: PropMap, b: PropMap, key: string, value: string)
    ensures a + b[key := value] == (a + b)[key := value]
    ensures a[key := value] + b == if key in b then a + b else (a + b)[key := value]
  {
  }

  /** Changing an entry of one layer changes the whole at that key at most. */
  lemma {:induction false} OverlayPut(ms: seq<PropMap>, j: nat, key: string, value: string)
    requires j < |ms|
    ensures var o := Overlay(ms[j := ms[j][key := value]]); o == Overlay(ms) || o == Overlay(ms)[key := value]
    decreases |ms|
  {
    var n := |ms| - 1;
    var changed := ms[j := ms[j][key := value]];
    assert Overlay(changed) == Overlay(changed[..n]) + changed[n] && Overlay(ms) == Overlay(ms[..n]) + ms[n];
    hide Overlay;
    PutUnder(Overlay(ms[..n]), ms[n], key, value);
    if j == n {
      assert changed[..n] == ms[..n];
    } else {
      OverlayPut(ms[..n], j, key, value);
      assert changed[..n] == ms[..n][j := ms[..n][j][key := value]];
    }
  }

  // ---- What a group makes of its children's outputs ----

  /** Each map over the ones before it. */
  function Overlay(outputs: seq<PropMap>): PropMap {
    if outputs == [] then map[] else Overlay(outputs[..|outputs| - 1]) + outputs[|outputs| - 1]
  }

  /** A key's value is the one of the last output that has it. */
  lemma {:induction false} OverlayAt(outputs: seq<PropMap>, i: nat, k: string)
    requires i < |outputs| && k in outputs[i] && forall j :: i < j < |outputs| ==> k !in outputs[j]
    ensures k in Overlay(outputs) && Overlay(outputs)[k] == outputs[i][k]
    decreases |outputs|
  {
    if i < |outputs| - 1 { OverlayAt(outputs[..|outputs| - 1], i, k); }
  }

  lemma {:induction false} OverlayKeys(outputs: seq<PropMap>, k: string)
    requires k in Overlay(outputs)
    ensures exists i :: 0 <= i < |outputs| && k in outputs[i]
    decreases |outputs|
  {
    var n := |outputs| - 1;
    if k !in outputs[n] {
      OverlayKeys(outputs[..n], k);
      var i :| 0 <= i < n && k in outputs[..n][i];
      assert k in outputs[i];
    }
  }

  ghost function FlatOrNone(p: Props?): PropMap
    requires p != null ==> p.Valid()
    reads if p == null then {} else p.Chain
  {
    if p == null then map[] else p.Flat()
  }

  /** The object stands for these properties; null stands for none. */
  ghost predicate Shows(p: Props?, o: Option<PropMap>)
    reads if p == null then {} else p.Chain
  {
    if p == null then o == None else p.Valid() && o == Some(p.Flat())
  }

  ghost function Flats(ps: seq<Props?>): (r: seq<PropMap>)
    requires forall p :: p in ps && p != null ==> p.Valid()
    reads set p, o | p in ps && p != null && o in p.Chain :: o
    ensures |r| == |ps|
  {
    if ps == [] then [] else
      assert forall p :: p in ps[..|ps| - 1] ==> p in ps;
      Flats(ps[..|ps| - 1]) + [FlatOrNone(ps[|ps| - 1])]
  }

  /** The loop of updateState for a successful group: new Props(returnProps, output) for each child. */
  method MergeOutputs(outputs: seq<Props?>) returns (returnProps: Props)
    requires forall p :: p in outputs && p != null ==> p.Valid()
    ensures returnProps.Valid() && returnProps.Flat() == Overlay(Flats(outputs))
  {
    hide Props.Valid, Props.Flat, Flats, Overlay;
    ghost var flats := Flats(outputs);
    FlatsAt(outputs);
    returnProps := new Props();
    assert flats[..0] == [];
    OverlayNone();
    var i := 0;
    while i < |outputs|
      invariant i <= |outputs| && returnProps.Valid() && returnProps.Flat() == Overlay(flats[..i])
      invariant forall x :: 0 <= x < |outputs| ==> flats[x] == FlatOrNone(outputs[x])
    {
      OverlayNext(flats, i);
      returnProps := new Props.With(returnProps, outputs[i]);
      i := i + 1;
    }
    assert flats[..i] == flats;
  }

  lemma OverlayNone()
    ensures Overlay([]) == map[]
  {
  }

  lemma OverlayNext(flats: seq<PropMap>, i: nat)
    requires i < |flats|
    ensures Overlay(flats[..i + 1]) == Overlay(flats[..i]) + flats[i]
  {
    assert flats[..i + 1][..i] == flats[..i];
  }

  lemma {:induction false} FlatsAt(ps: seq<Props?>)
    requires forall p :: p in ps && p != null ==> p.Valid()
    ensures forall i :: 0 <= i < |ps| ==> Flats(ps)[i] == FlatOrNone(ps[i])
  {
    if ps != [] {
      var n := |ps| - 1;
      assert forall p :: p in ps[..n] ==> p in ps;
      FlatsAt(ps[..n]);
    }
  }

  /** Each key some output has, with the value of the last output that has it, and no other key. */
  ghost predicate LastOneWins(merged: PropMap, outputs: seq<PropMap>) {
    && (forall i, key ::
          && 0 <= i < |outputs| && key in outputs[i] && (forall j :: i < j < |outputs| ==> key !in outputs[j])
          ==> key in merged && merged[key] == outputs[i][key])
    && (forall key :: key in merged ==> exists i :: 0 <= i < |outputs| && key in outputs[i])
  }

  lemma OverlayLastWins(outputs: seq<PropMap>)
    ensures LastOneWins(Overlay(outputs), outputs)
  {
    forall i, key | 0 <= i < |outputs| && key in outputs[i] && (forall j :: i < j < |outputs| ==> key !in outputs[j])
      ensures key in Overlay(outputs) && Overlay(outputs)[key] == outputs[i][key]
    {
      OverlayAt(outputs, i, key);
    }
    forall key | key in Overlay(outputs) ensures exists i :: 0 <= i < |outputs| && key in outputs[i] {
      OverlayKeys(outputs, key);
    }
  }

  lemma MergeNone(flows: map<Job, Flow>)
    ensures Merge(flows, []) == map[]
  {
  }

  lemma MergeNext(flows: map<Job, Flow>, ds: seq<Job>, i: nat)
    requires (forall d :: d in ds ==> d in flows) && i < |ds|
    ensures Merge(flows, ds[..i + 1]) == Merge(flows, ds[..i]) + flows[ds[i]].Output()
  {
    assert ds[..i + 1][..i] == ds[..i];
  }

  function Outputs(flows: map<Job, Flow>, ds: seq<Job>): seq<PropMap>
    requires forall d :: d in ds ==> d in flows
  {
    seq(|ds|, i requires 0 <= i < |ds| => flows[ds[i]].Output())
  }

  lemma MergeLastWins(flows: map<Job, Flow>, ds: seq<Job>)
    requires forall d :: d in ds ==> d in flows
    ensures LastOneWins(Merge(flows, ds), Outputs(flows, ds))
  {
    MergeIsOverlay(flows, ds, Outputs(flows, ds));
    OverlayLastWins(Outputs(flows, ds));
  }

  /** What runs take as a group's return props is that overlay of its children's outputs. */
  lemma {:induction false} MergeIsOverlay(flows: map<Job, Flow>, ds: seq<Job>, outputs: seq<PropMap>)
    requires |outputs| == |ds| && (forall d :: d in ds ==> d in flows)
    requires forall i :: 0 <= i < |ds| ==> outputs[i] == flows[ds[i]].Output()
    ensures Merge(flows, ds) == Overlay(outputs)
    decreases |ds|
  {
    if ds != [] { MergeIsOverlay(flows, ds[..|ds| - 1], outputs[..|ds| - 1]); }
  }
}
